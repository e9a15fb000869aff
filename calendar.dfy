/**
 * Python's `datetime.date` on the proleptic Gregorian calendar, restricted to
 * its range (years 1..9999): day counting as `date.toordinal()` does it, the
 * `%Y-%m-%d` recogniser of `datetime.strptime`, the `%d.%m.%Y` rendering of
 * `strftime`, and the epoch-millisecond instant of noon UTC of a date.
 */
module Calendar {
  import opened Wrappers

  datatype Date = Date(year: int, month: int, day: int)

  predicate IsLeapYear(y: int) {
    y % 4 == 0 && (y % 100 != 0 || y % 400 == 0)
  }

  function DaysInMonth(y: int, m: int): int
    requires 1 <= m <= 12
  {
    if m == 2 then (if IsLeapYear(y) then 29 else 28)
    else if m == 4 || m == 6 || m == 9 || m == 11 then 30
    else 31
  }

  /** The dates a Python `date` can hold: `date.min` is 0001-01-01, `date.max` 9999-12-31. */
  predicate Valid(d: Date) {
    1 <= d.year <= 9999 && 1 <= d.month <= 12 && 1 <= d.day <= DaysInMonth(d.year, d.month)
  }

  /** The values a `datetime.date` can hold. */
  type CivilDate = d: Date | Valid(d) witness Date(1970, 1, 1)

  /** Days in the years before `y` (Python's `_days_before_year`). */
  function DaysBeforeYear(y: int): int
    requires 1 <= y
  {
    var p := y - 1;
    365 * p + p / 4 - p / 100 + p / 400
  }

  /** Days in the months of year `y` before month `m` (Python's `_days_before_month`). */
  function DaysBeforeMonth(y: int, m: int): int
    requires 1 <= m <= 12
  {
    var base :=
      if m == 1 then 0 else if m == 2 then 31 else if m == 3 then 59
      else if m == 4 then 90 else if m == 5 then 120 else if m == 6 then 151
      else if m == 7 then 181 else if m == 8 then 212 else if m == 9 then 243
      else if m == 10 then 273 else if m == 11 then 304 else 334;
    base + (if m > 2 && IsLeapYear(y) then 1 else 0)
  }

  /** `date.toordinal()`: 0001-01-01 is day 1. */
  function Ordinal(d: Date): int
    requires Valid(d)
  {
    DaysBeforeYear(d.year) + DaysBeforeMonth(d.year, d.month) + d.day
  }

  /** `date.max.toordinal()`. */
  const MaxOrdinal := 3652059
  /** `date(1970, 1, 1).toordinal()`, the Unix epoch. */
  const EpochOrdinal := 719163

  lemma OrdinalLandmarks()
    ensures Ordinal(Date(9999, 12, 31)) == MaxOrdinal
    ensures Ordinal(Date(1970, 1, 1)) == EpochOrdinal
    ensures Ordinal(Date(1, 1, 1)) == 1
  {
  }

  /** Only `date.max` has the largest ordinal, so a smaller one has a successor. */
  lemma BelowMax(d: Date)
    requires Valid(d) && Ordinal(d) < MaxOrdinal
    ensures d != Date(9999, 12, 31)
  {
    assert Ordinal(Date(9999, 12, 31)) == MaxOrdinal;
  }

  /** A year has 365 days, 366 in a leap year. */
  lemma {:induction false} YearLength(y: int)
    requires 1 <= y
    ensures DaysBeforeYear(y + 1) == DaysBeforeYear(y) + (if IsLeapYear(y) then 366 else 365)
  {
    var p := y - 1;
    assert y / 4 - p / 4 == (if y % 4 == 0 then 1 else 0);
    assert y / 100 - p / 100 == (if y % 100 == 0 then 1 else 0);
    assert y / 400 - p / 400 == (if y % 400 == 0 then 1 else 0);
  }

  /** Month `m` starts right after month `m - 1` ends. */
  lemma MonthLength(y: int, m: int)
    requires 1 <= m < 12
    ensures DaysBeforeMonth(y, m + 1) == DaysBeforeMonth(y, m) + DaysInMonth(y, m)
  {
  }

  /** The day after `d`, when `d` is not `date.max`. */
  function NextDay(d: Date): (r: Date)
    requires Valid(d) && d != Date(9999, 12, 31)
    ensures Valid(r)
  {
    if d.day < DaysInMonth(d.year, d.month) then Date(d.year, d.month, d.day + 1)
    else if d.month < 12 then Date(d.year, d.month + 1, 1)
    else Date(d.year + 1, 1, 1)
  }

  /** Moving to the next calendar day advances the ordinal by exactly one. */
  lemma NextDayOrdinal(d: Date)
    requires Valid(d) && d != Date(9999, 12, 31)
    ensures Ordinal(NextDay(d)) == Ordinal(d) + 1
  {
    if d.day == DaysInMonth(d.year, d.month) {
      if d.month < 12 {
        MonthLength(d.year, d.month);
      } else {
        YearLength(d.year);
      }
    }
  }

  /** `d + timedelta(days=n)`, stepping one calendar day at a time. */
  function AddDays(d: Date, n: nat): (r: Date)
    requires Valid(d) && Ordinal(d) + n <= MaxOrdinal
    ensures Valid(r)
    decreases n
  {
    if n == 0 then d
    else
      BelowMax(d);
      NextDayOrdinal(d);
      AddDays(NextDay(d), n - 1)
  }

  /** Adding `n` days adds `n` to the ordinal, which is how Python computes it. */
  lemma {:induction false} AddDaysOrdinal(d: Date, n: nat)
    requires Valid(d) && Ordinal(d) + n <= MaxOrdinal
    ensures Ordinal(AddDays(d, n)) == Ordinal(d) + n
    decreases n
  {
    if n > 0 {
      BelowMax(d);
      NextDayOrdinal(d);
      AddDaysOrdinal(NextDay(d), n - 1);
    }
  }

  lemma {:induction false} DaysBeforeYearGrows(a: int, b: int)
    requires 1 <= a <= b
    ensures DaysBeforeYear(b) >= DaysBeforeYear(a) + 365 * (b - a)
    decreases b - a
  {
    if a < b {
      YearLength(b - 1);
      DaysBeforeYearGrows(a, b - 1);
    }
  }

  /** A date's ordinal lies within its own year. */
  lemma OrdinalWithinYear(d: Date)
    requires Valid(d)
    ensures DaysBeforeYear(d.year) < Ordinal(d) <= DaysBeforeYear(d.year + 1)
  {
    YearLength(d.year);
  }

  /** Every valid date lies on or before `date.max`. */
  lemma AtMostMax(d: Date)
    requires Valid(d)
    ensures Ordinal(d) <= MaxOrdinal
  {
    OrdinalWithinYear(d);
    DaysBeforeYearGrows(d.year + 1, 10000);
    assert DaysBeforeYear(10000) == MaxOrdinal;
  }

  lemma MonthsOrdered(y: int, a: int, b: int)
    requires 1 <= a < b <= 12
    ensures DaysBeforeMonth(y, a) + DaysInMonth(y, a) <= DaysBeforeMonth(y, b)
  {
  }

  /** Two valid dates with the same ordinal are the same date. */
  lemma OrdinalInjective(a: Date, b: Date)
    requires Valid(a) && Valid(b) && Ordinal(a) == Ordinal(b)
    ensures a == b
  {
    OrdinalWithinYear(a);
    OrdinalWithinYear(b);
    if a.year < b.year {
      DaysBeforeYearGrows(a.year + 1, b.year);
      assert false;
    } else if b.year < a.year {
      DaysBeforeYearGrows(b.year + 1, a.year);
      assert false;
    }
    if a.month < b.month {
      MonthsOrdered(a.year, a.month, b.month);
      assert false;
    } else if b.month < a.month {
      MonthsOrdered(a.year, b.month, a.month);
      assert false;
    }
  }

  // ---------------------------------------------------------------------------
  // Decimal digits
  // ---------------------------------------------------------------------------

  predicate IsDigit(c: char) {
    '0' <= c <= '9'
  }

  function DigitValue(c: char): (v: int)
    requires IsDigit(c)
    ensures 0 <= v <= 9
  {
    c as int - '0' as int
  }

  function DigitChar(v: int): (c: char)
    requires 0 <= v <= 9
    ensures IsDigit(c) && DigitValue(c) == v
  {
    ('0' as int + v) as char
  }

  /** `n` on two digits, zero-padded. */
  function Pad2(n: int): (s: string)
    requires 0 <= n < 100
    ensures |s| == 2 && IsDigit(s[0]) && IsDigit(s[1])
    ensures 10 * DigitValue(s[0]) + DigitValue(s[1]) == n
  {
    [DigitChar(n / 10), DigitChar(n % 10)]
  }

  /** `n` on four digits, zero-padded. */
  function Pad4(n: int): (s: string)
    requires 0 <= n < 10000
    ensures |s| == 4 && IsDigit(s[0]) && IsDigit(s[1]) && IsDigit(s[2]) && IsDigit(s[3])
    ensures 100 * (10 * DigitValue(s[0]) + DigitValue(s[1])) + 10 * DigitValue(s[2]) + DigitValue(s[3]) == n
  {
    Pad2(n / 100) + Pad2(n % 100)
  }

  // ---------------------------------------------------------------------------
  // datetime.strptime(text, "%Y-%m-%d").date()
  // ---------------------------------------------------------------------------

  /**
   * The `%m` token at position `p`: the first of the alternatives
   * `1[0-2]`, `0[1-9]`, `[1-9]` that matches, as (value, width).
   */
  function MonthToken(s: string, p: nat): (t: Option<(int, nat)>)
    ensures t.Some? ==> 1 <= t.value.0 <= 12 && 1 <= t.value.1 <= 2 && p + t.value.1 <= |s|
  {
    if p + 1 < |s| && s[p] == '1' && '0' <= s[p + 1] <= '2' then Some((10 + DigitValue(s[p + 1]), 2))
    else if p + 1 < |s| && s[p] == '0' && '1' <= s[p + 1] <= '9' then Some((DigitValue(s[p + 1]), 2))
    else if p < |s| && '1' <= s[p] <= '9' then Some((DigitValue(s[p]), 1))
    else None
  }

  /**
   * The `%d` token at position `p`: the first of the alternatives
   * `3[01]`, `[12]\d`, `0[1-9]`, `[1-9]`, ` [1-9]` that matches, as (value, width).
   */
  function DayToken(s: string, p: nat): (t: Option<(int, nat)>)
    ensures t.Some? ==> 1 <= t.value.0 <= 31 && 1 <= t.value.1 <= 2 && p + t.value.1 <= |s|
  {
    if p + 1 < |s| && s[p] == '3' && (s[p + 1] == '0' || s[p + 1] == '1') then Some((30 + DigitValue(s[p + 1]), 2))
    else if p + 1 < |s| && (s[p] == '1' || s[p] == '2') && IsDigit(s[p + 1]) then
      Some((10 * DigitValue(s[p]) + DigitValue(s[p + 1]), 2))
    else if p + 1 < |s| && s[p] == '0' && '1' <= s[p + 1] <= '9' then Some((DigitValue(s[p + 1]), 2))
    else if p < |s| && '1' <= s[p] <= '9' then Some((DigitValue(s[p]), 1))
    else if p + 1 < |s| && s[p] == ' ' && '1' <= s[p + 1] <= '9' then Some((DigitValue(s[p + 1]), 2))
    else None
  }

  /**
   * `datetime.strptime(s, "%Y-%m-%d").date()`, with `None` for the `ValueError`:
   * four digits of year, `-`, a month token, `-`, a day token, nothing after it,
   * and a date that exists (year 0 and 31 April are refused).
   */
  function ParseIsoDate(s: string): (r: Option<Date>)
    ensures r.Some? ==> Valid(r.value)
  {
    if |s| >= 5 && IsDigit(s[0]) && IsDigit(s[1]) && IsDigit(s[2]) && IsDigit(s[3]) && s[4] == '-' then
      var year := 100 * (10 * DigitValue(s[0]) + DigitValue(s[1])) + 10 * DigitValue(s[2]) + DigitValue(s[3]);
      match MonthToken(s, 5)
      case None => None
      case Some(mt) =>
        if 5 + mt.1 < |s| && s[5 + mt.1] == '-' then
          match DayToken(s, 6 + mt.1)
          case None => None
          case Some(dt) =>
            var d := Date(year, mt.0, dt.0);
            if 6 + mt.1 + dt.1 == |s| && Valid(d) then Some(d) else None
        else None
    else None
  }

  /** The `YYYY-MM-DD` spelling the bot asks the user for. */
  function IsoString(d: Date): string
    requires Valid(d)
  {
    Pad4(d.year) + "-" + Pad2(d.month) + "-" + Pad2(d.day)
  }

  /** Every valid date, written as the prompt asks, is read back as itself. */
  lemma ParseIsoString(d: Date)
    requires Valid(d)
    ensures ParseIsoDate(IsoString(d)) == Some(d)
  {
    var s := IsoString(d);
    assert s[..4] == Pad4(d.year);
    assert s[4] == '-' && s[5..7] == Pad2(d.month) && s[7] == '-' && s[8..10] == Pad2(d.day);
    assert MonthToken(s, 5) == Some((d.month, 2));
    assert DayToken(s, 8) == Some((d.day, 2));
  }

  // ---------------------------------------------------------------------------
  // date.strftime("%d.%m.%Y")
  // ---------------------------------------------------------------------------

  /** `d.strftime("%d.%m.%Y")`. */
  function DottedString(d: Date): (s: string)
    requires Valid(d)
    ensures |s| == 10
  {
    Pad2(d.day) + "." + Pad2(d.month) + "." + Pad4(d.year)
  }

  /** Different dates are rendered differently, so the rendering names the date. */
  lemma DottedStringInjective(a: Date, b: Date)
    requires Valid(a) && Valid(b) && DottedString(a) == DottedString(b)
    ensures a == b
  {
    var s, t := DottedString(a), DottedString(b);
    assert s[..2] == Pad2(a.day) && t[..2] == Pad2(b.day);
    assert s[3..5] == Pad2(a.month) && t[3..5] == Pad2(b.month);
    assert s[6..] == Pad4(a.year) && t[6..] == Pad4(b.year);
  }

  // ---------------------------------------------------------------------------
  // Noon UTC as epoch milliseconds
  // ---------------------------------------------------------------------------

  const MsPerDay := 86_400_000

  /**
   * `int(datetime(y, m, d, 12, 0, 0, tzinfo=timezone.utc).timestamp() * 1000)`:
   * the float is an exact whole number here, so it is day count times a day plus
   * half a day.
   */
  function NoonUtcMs(d: Date): int
    requires Valid(d)
  {
    (Ordinal(d) - EpochOrdinal) * MsPerDay + MsPerDay / 2
  }

  /** The instant is noon: half a day past a multiple of a day, on the date's own day. */
  lemma NoonUtcMsIsNoon(d: Date)
    requires Valid(d)
    ensures NoonUtcMs(d) % MsPerDay == MsPerDay / 2
    ensures NoonUtcMs(d) / MsPerDay == Ordinal(d) - EpochOrdinal
  {
  }

  /** Different dates give different instants; `n` days later is `n` days of milliseconds later. */
  lemma NoonUtcMsFaithful(d: Date, e: Date, n: nat)
    requires Valid(d) && Valid(e) && Ordinal(d) + n <= MaxOrdinal
    ensures NoonUtcMs(d) == NoonUtcMs(e) ==> d == e
    ensures NoonUtcMs(AddDays(d, n)) == NoonUtcMs(d) + n * MsPerDay
  {
    if NoonUtcMs(d) == NoonUtcMs(e) {
      OrdinalInjective(d, e);
    }
    AddDaysOrdinal(d, n);
  }

  lemma EpochNoon()
    ensures NoonUtcMs(Date(1970, 1, 1)) == 43_200_000
    ensures NoonUtcMs(Date(2025, 11, 13)) == 1_763_035_200_000
  {
  }
}
