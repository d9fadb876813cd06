/** Calendar days and the date arithmetic the finance engine relies on.

    A `Date` is a valid proleptic-Gregorian (year, month, day) triple with
    month 1..12.  Every ordering test the engine performs (`<`, `<=`,
    `isBefore`, `isAfter`, `getTime() ===`) is a comparison of `DayNumber`,
    the number of days since 1970-01-01.  Times of day and time zones are not
    part of the model: every JavaScript `Date` stands for its calendar day.

    Three families of operations are modelled:
    - the native constructor `new Date(y, m, d)`, which overflows into the
      neighbouring months (`NativeDate`);
    - date-fns `addDays`/`addWeeks` (native overflow of the day field) and
      `addMonths`/`addYears` (same day, clamped to the last day of the target
      month) — the latter is the library's documented behaviour, assumed here;
    - comparisons through `DayNumber`. */
module Calendar {

  datatype YMD = YMD(year: int, month: int, day: int)

  predicate IsLeapYear(y: int) {
    (y % 4 == 0 && y % 100 != 0) || y % 400 == 0
  }

  function DaysInMonth(y: int, m: int): (n: int)
    requires 1 <= m <= 12
    ensures 28 <= n <= 31
  {
    if m == 2 then (if IsLeapYear(y) then 29 else 28)
    else if m == 4 || m == 6 || m == 9 || m == 11 then 30
    else 31
  }

  predicate IsValid(d: YMD) {
    1 <= d.month <= 12 && 1 <= d.day <= DaysInMonth(d.year, d.month)
  }

  /** A calendar day. */
  type Date = d: YMD | IsValid(d) witness YMD(1970, 1, 1)

  function DaysInYear(y: int): int {
    if IsLeapYear(y) then 366 else 365
  }

  /** Days from 1970-01-01 to January 1st of year `y` (negative before 1970). */
  function DaysBeforeYear(y: int): int
    decreases if y >= 1970 then y - 1970 else 1970 - y
  {
    if y == 1970 then 0
    else if y > 1970 then DaysBeforeYear(y - 1) + DaysInYear(y - 1)
    else DaysBeforeYear(y + 1) - DaysInYear(y)
  }

  /** Days from January 1st to the first day of month `m` of year `y`. */
  function DaysBeforeMonth(y: int, m: int): int
    requires 1 <= m <= 12
  {
    var common := [0, 31, 59, 90, 120, 151, 181, 212, 243, 273, 304, 334];
    common[m - 1] + (if m > 2 && IsLeapYear(y) then 1 else 0)
  }

  /** Day number of the first day of month `m` of year `y`. */
  function MonthStart(y: int, m: int): int
    requires 1 <= m <= 12
  {
    DaysBeforeYear(y) + DaysBeforeMonth(y, m)
  }

  /** Days since 1970-01-01: the model of `getTime()` for whole days. */
  function DayNumber(d: Date): int {
    MonthStart(d.year, d.month) + d.day - 1
  }

  predicate Before(a: Date, b: Date) { DayNumber(a) < DayNumber(b) }
  predicate OnOrBefore(a: Date, b: Date) { DayNumber(a) <= DayNumber(b) }

  /** Months counted from January of year 0. */
  function MonthIndex(y: int, m: int): int { 12 * y + (m - 1) }

  function NextMonth(y: int, m: int): (r: (int, int))
    requires 1 <= m <= 12
    ensures 1 <= r.1 <= 12 && MonthIndex(r.0, r.1) == MonthIndex(y, m) + 1
  {
    if m == 12 then (y + 1, 1) else (y, m + 1)
  }

  function PrevMonth(y: int, m: int): (r: (int, int))
    requires 1 <= m <= 12
    ensures 1 <= r.1 <= 12 && MonthIndex(r.0, r.1) == MonthIndex(y, m) - 1
  {
    if m == 1 then (y - 1, 12) else (y, m - 1)
  }

  lemma YearStep(y: int)
    ensures DaysBeforeYear(y + 1) == DaysBeforeYear(y) + DaysInYear(y)
  {
  }

  /** The month after (y, m) starts exactly DaysInMonth(y, m) days later. */
  lemma MonthStartNext(y: int, m: int)
    requires 1 <= m <= 12
    ensures MonthStart(NextMonth(y, m).0, NextMonth(y, m).1) == MonthStart(y, m) + DaysInMonth(y, m)
  {
    if m == 12 {
      YearStep(y);
    }
  }

  /** A later month starts no earlier than the end of an earlier one. */
  lemma {:induction false} MonthStartMonotone(y1: int, m1: int, y2: int, m2: int)
    requires 1 <= m1 <= 12 && 1 <= m2 <= 12
    requires MonthIndex(y1, m1) < MonthIndex(y2, m2)
    ensures MonthStart(y2, m2) >= MonthStart(y1, m1) + DaysInMonth(y1, m1)
    decreases MonthIndex(y2, m2) - MonthIndex(y1, m1)
  {
    var p := PrevMonth(y2, m2);
    assert NextMonth(p.0, p.1) == (y2, m2);
    MonthStartNext(p.0, p.1);
    if MonthIndex(p.0, p.1) != MonthIndex(y1, m1) {
      MonthStartMonotone(y1, m1, p.0, p.1);
    } else {
      assert p == (y1, m1);
    }
  }

  /** The year and month `i` months after January of year 0. */
  function FromMonthIndex(i: int): (r: (int, int))
    ensures 1 <= r.1 <= 12 && MonthIndex(r.0, r.1) == i
  {
    (i / 12, i % 12 + 1)
  }

  /** A valid year and month are their own month index's year and month. */
  lemma FromMonthIndexOf(y: int, m: int)
    requires 1 <= m <= 12
    ensures FromMonthIndex(MonthIndex(y, m)) == (y, m)
  {
    var r := FromMonthIndex(MonthIndex(y, m));
    assert 12 * (r.0 - y) == m - r.1;
  }

  /** Day `d` of month `m` of year `y`, overflowing into the following or
      preceding months when `d` is outside 1..DaysInMonth(y, m). */
  function NormalizeDay(y: int, m: int, d: int): (r: Date)
    requires 1 <= m <= 12
    ensures DayNumber(r) == MonthStart(y, m) + d - 1
    decreases if d < 1 then 1 else 0, if d < 1 then -d else d
  {
    if d < 1 then
      var p := PrevMonth(y, m);
      MonthStartNext(p.0, p.1);
      assert NextMonth(p.0, p.1) == (y, m);
      NormalizeDay(p.0, p.1, d + DaysInMonth(p.0, p.1))
    else if d > DaysInMonth(y, m) then
      var n := NextMonth(y, m);
      MonthStartNext(y, m);
      NormalizeDay(n.0, n.1, d - DaysInMonth(y, m))
    else
      YMD(y, m, d)
  }

  /** `new Date(y, m - 1, d)`: month `m` is 1-based here and may lie outside
      1..12 (month 13 is January of the next year); the day overflows as
      JavaScript's Date constructor does. */
  function NativeDate(y: int, m: int, d: int): (r: Date)
    ensures var t := FromMonthIndex(MonthIndex(y, m));
            DayNumber(r) == MonthStart(t.0, t.1) + d - 1
  {
    var t := FromMonthIndex(MonthIndex(y, m));
    NormalizeDay(t.0, t.1, d)
  }

  /** A valid (y, m, d) needs no normalisation. */
  lemma NativeDateInRange(y: int, m: int, d: int)
    requires 1 <= m <= 12 && 1 <= d <= DaysInMonth(y, m)
    ensures NativeDate(y, m, d) == YMD(y, m, d)
  {
    FromMonthIndexOf(y, m);
  }

  /** date-fns `addDays` (and `Date.setDate(getDate() + n)`): native day overflow. */
  function AddDays(d: Date, n: int): (r: Date)
    ensures DayNumber(r) == DayNumber(d) + n
  {
    NormalizeDay(d.year, d.month, d.day + n)
  }

  /** date-fns `addMonths`: the same day of the month `n` months later, clamped
      to that month's last day (Jan 31 + 1 month = Feb 28/29). */
  function AddMonths(d: Date, n: int): (r: Date)
    ensures MonthIndex(r.year, r.month) == MonthIndex(d.year, d.month) + n
    ensures r.day == if d.day <= DaysInMonth(r.year, r.month) then d.day else DaysInMonth(r.year, r.month)
    ensures n > 0 ==> DayNumber(d) < DayNumber(r)
  {
    var t := FromMonthIndex(MonthIndex(d.year, d.month) + n);
    var day := if d.day <= DaysInMonth(t.0, t.1) then d.day else DaysInMonth(t.0, t.1);
    var r := YMD(t.0, t.1, day);
    if n > 0 then
      MonthStartMonotone(d.year, d.month, t.0, t.1);
      r
    else
      r
  }

  /** date-fns `addYears(d, n)` = `addMonths(d, 12 * n)` (Feb 29 + 1 year = Feb 28). */
  function AddYears(d: Date, n: int): (r: Date)
    ensures r.month == d.month && r.year == d.year + n
    ensures n > 0 ==> DayNumber(d) < DayNumber(r)
  {
    AddMonths(d, 12 * n)
  }

  /** Any day of a later month is later than any day of an earlier month. */
  lemma LaterMonthIsLater(a: Date, b: Date)
    requires MonthIndex(a.year, a.month) < MonthIndex(b.year, b.month)
    ensures Before(a, b)
  {
    MonthStartMonotone(a.year, a.month, b.year, b.month);
  }
}
