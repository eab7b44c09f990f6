/**
 * Calendar arithmetic as the application's date code sees it.
 *
 * A `Day` counts days from 1970-01-01 (negative before it); a `Time` counts
 * milliseconds from 1970-01-01T00:00:00Z, like a JavaScript time value. The
 * whole model runs in UTC, so a local midnight and a UTC midnight coincide.
 *
 * Months are numbered by a single index k = 12 * year + month0 (month0 in
 * 0..11, as JavaScript's `getMonth`), so that "the next month" is k + 1 and
 * the start of every month follows from the length of the one before.
 */
module Dates {

  type Day = int
  type Time = int

  const MsPerDay: int := 86_400_000
  /** Month index of January 1970, the month whose first day is Day 0. */
  const EpochMonth: int := 1970 * 12

  function Min(a: int, b: int): int { if a <= b then a else b }

  predicate IsLeapYear(year: int) {
    year % 4 == 0 && (year % 100 != 0 || year % 400 == 0)
  }

  /** Days in `month` (1..12) of `year`, Gregorian calendar. */
  function DaysInMonth(year: int, month: int): (n: int)
    requires 1 <= month <= 12
    ensures 28 <= n <= 31
    ensures month == 2 ==> (n == 29 <==> IsLeapYear(year))
  {
    if month == 2 then (if IsLeapYear(year) then 29 else 28)
    else if month == 4 || month == 6 || month == 9 || month == 11 then 30
    else 31
  }

  function YearOfMonth(k: int): int { k / 12 }

  /** 0-based month within the year, as `Date.prototype.getMonth`. */
  function Month0OfMonth(k: int): int { k % 12 }

  function MonthLength(k: int): (n: int)
    ensures 28 <= n <= 31
  {
    DaysInMonth(YearOfMonth(k), Month0OfMonth(k) + 1)
  }

  /** The Day of the first day of month k. */
  function MonthStart(k: int): Day
    decreases if k < EpochMonth then EpochMonth - k else k - EpochMonth
  {
    if k == EpochMonth then 0
    else if k > EpochMonth then MonthStart(k - 1) + MonthLength(k - 1)
    else MonthStart(k + 1) - MonthLength(k)
  }

  lemma MonthStartStep(k: int)
    ensures MonthStart(k + 1) == MonthStart(k) + MonthLength(k)
  {
    if k < EpochMonth && k + 1 != EpochMonth {
      assert MonthStart(k) == MonthStart(k + 1) - MonthLength(k);
    }
  }

  /** Consecutive months partition the days: later months start later, by 28 to 31 days a month. */
  lemma {:induction false} MonthStartBounds(j: int, k: int)
    requires j <= k
    ensures MonthStart(j) + 28 * (k - j) <= MonthStart(k) <= MonthStart(j) + 31 * (k - j)
    decreases k - j
  {
    if j < k {
      MonthStartBounds(j, k - 1);
      MonthStartStep(k - 1);
    }
  }

  function SearchUp(n: Day, k: int): (r: int)
    requires MonthStart(k) <= n
    ensures MonthStart(r) <= n < MonthStart(r + 1)
    decreases n - MonthStart(k)
  {
    MonthStartStep(k);
    if n < MonthStart(k + 1) then k else SearchUp(n, k + 1)
  }

  function SearchDown(n: Day, k: int): (r: int)
    requires n < MonthStart(k + 1)
    ensures MonthStart(r) <= n < MonthStart(r + 1)
    decreases MonthStart(k + 1) - n
  {
    MonthStartStep(k);
    if MonthStart(k) <= n then k else SearchDown(n, k - 1)
  }

  /** The month index whose days include Day n. */
  function MonthOfDay(n: Day): (k: int)
    ensures MonthStart(k) <= n < MonthStart(k + 1)
  {
    if n >= 0 then SearchUp(n, EpochMonth) else SearchDown(n, EpochMonth - 1)
  }

  /** Every day lies in exactly one month. */
  lemma MonthOfDayUnique(n: Day, k: int)
    requires MonthStart(k) <= n < MonthStart(k + 1)
    ensures MonthOfDay(n) == k
  {
    var m := MonthOfDay(n);
    if m < k {
      MonthStartBounds(m + 1, k);
    } else if k < m {
      MonthStartBounds(k + 1, m);
    }
  }

  /** 1-based day of the month, as `Date.prototype.getDate`. */
  function DateOfDay(n: Day): (d: int)
    ensures 1 <= d <= MonthLength(MonthOfDay(n))
  {
    MonthStartStep(MonthOfDay(n));
    n - MonthStart(MonthOfDay(n)) + 1
  }

  /** A day within month k is in month k, at its distance from the first plus one. */
  lemma DayInMonth(n: Day, k: int)
    requires MonthStart(k) <= n < MonthStart(k + 1)
    ensures MonthOfDay(n) == k && DateOfDay(n) == n - MonthStart(k) + 1
  {
    MonthOfDayUnique(n, k);
  }

  // ---------------------------------------------------------------------
  // Civil dates (year, month 1..12, day 1..31)

  datatype Civil = Civil(year: int, month: int, day: int)

  predicate ValidCivil(c: Civil) {
    1 <= c.month <= 12 && 1 <= c.day <= DaysInMonth(c.year, c.month)
  }

  lemma MonthIndexSplit(year: int, month0: int)
    requires 0 <= month0 < 12
    ensures YearOfMonth(12 * year + month0) == year
    ensures Month0OfMonth(12 * year + month0) == month0
  {
  }

  function DayOfCivil(c: Civil): Day
    requires ValidCivil(c)
  {
    MonthStart(12 * c.year + c.month - 1) + c.day - 1
  }

  /** The civil date of a day: a valid date that maps back to the same day. */
  function CivilOfDay(n: Day): (c: Civil)
    ensures ValidCivil(c) && DayOfCivil(c) == n
  {
    var k := MonthOfDay(n);
    var c := Civil(YearOfMonth(k), Month0OfMonth(k) + 1, DateOfDay(n));
    assert 12 * c.year + c.month - 1 == k;
    c
  }

  /** Day numbering of valid civil dates is one-to-one: each valid date comes back unchanged. */
  lemma CivilRoundTrip(c: Civil)
    requires ValidCivil(c)
    ensures CivilOfDay(DayOfCivil(c)) == c
  {
    var k := 12 * c.year + c.month - 1;
    MonthIndexSplit(c.year, c.month - 1);
    MonthStartStep(k);
    MonthOfDayUnique(DayOfCivil(c), k);
  }

  // ---------------------------------------------------------------------
  // JavaScript Date construction

  /**
   * The year `new Date(year, month, day)` uses: a year argument in 0..99
   * means 1900..1999.
   */
  function JsYear(year: int): int {
    if 0 <= year <= 99 then 1900 + year else year
  }

  /**
   * The Day of `new Date(year, month0, date)` (local midnight, here UTC),
   * for years outside 0..99 (see `JsYear`): the first day of the normalised
   * month plus date - 1, so an out-of-range month or date rolls over.
   */
  function JsDateDay(year: int, month0: int, date: int): Day {
    MonthStart(12 * year + month0) + date - 1
  }

  /** A date within the month's length lands on that very civil date. */
  lemma JsDateInMonth(year: int, month0: int, date: int)
    requires 0 <= month0 < 12
    requires 1 <= date <= DaysInMonth(year, month0 + 1)
    ensures CivilOfDay(JsDateDay(year, month0, date)) == Civil(year, month0 + 1, date)
  {
    CivilRoundTrip(Civil(year, month0 + 1, date));
  }

  /** A date past the month's end spills into the next month, keeping the excess. */
  lemma JsDateRollover(year: int, month0: int, date: int)
    requires MonthLength(12 * year + month0) < date
    ensures JsDateDay(year, month0, date)
         == JsDateDay(year, month0 + 1, date - MonthLength(12 * year + month0))
  {
    MonthStartStep(12 * year + month0);
  }

  /**
   * `new Date(y, m, date)` with the year and month of month k: the first
   * of month k plus date - 1, once the year is past the 0..99 window.
   */
  lemma JsDateOfMonth(k: int, date: int)
    requires YearOfMonth(k) >= 100
    ensures JsDateDay(JsYear(YearOfMonth(k)), Month0OfMonth(k), date) == MonthStart(k) + date - 1
  {
  }

  /** Days from the epoch on lie in months of 1970 or later. */
  lemma MonthOfDayFromEpoch(n: Day)
    requires n >= 0
    ensures MonthOfDay(n) >= EpochMonth && YearOfMonth(MonthOfDay(n)) >= 1970
  {
    var k := MonthOfDay(n);
    if k < EpochMonth {
      MonthStartBounds(k + 1, EpochMonth);
    }
  }

  // ---------------------------------------------------------------------
  // Instants

  function Midnight(d: Day): Time { d * MsPerDay }

  function DayOf(t: Time): Day { t / MsPerDay }

  function TimeOfDay(t: Time): int { t % MsPerDay }

  lemma DayOfMidnightPlus(d: Day, ms: int)
    requires 0 <= ms < MsPerDay
    ensures DayOf(Midnight(d) + ms) == d
    ensures TimeOfDay(Midnight(d) + ms) == ms
  {
  }

  /** A midnight is earlier than `now` iff its day is earlier, or it is today's and now is past midnight. */
  lemma MidnightBefore(d: Day, now: Time)
    ensures Midnight(d) < now <==> d < DayOf(now) || (d == DayOf(now) && TimeOfDay(now) > 0)
  {
    assert now == Midnight(DayOf(now)) + TimeOfDay(now);
  }

  /** date-fns `addDays` on a UTC clock. */
  function AddDays(t: Time, days: int): Time { t + days * MsPerDay }

  /**
   * date-fns `addMonths` on a midnight: the same day of the month `amount`
   * months later, clamped to the last day of that month.
   */
  function AddMonths(d: Day, amount: int): (r: Day)
    ensures MonthOfDay(r) == MonthOfDay(d) + amount
    ensures DateOfDay(r) == Min(DateOfDay(d), MonthLength(MonthOfDay(d) + amount))
  {
    var target := MonthOfDay(d) + amount;
    var r := MonthStart(target) + Min(DateOfDay(d), MonthLength(target)) - 1;
    MonthStartStep(target);
    MonthOfDayUnique(r, target);
    r
  }

  /** A day of month k, one month on: the same date of month k + 1, clamped to its length. */
  lemma AddMonthFrom(d: Day, k: int)
    requires MonthStart(k) <= d < MonthStart(k + 1)
    ensures MonthOfDay(AddMonths(d, 1)) == k + 1
    ensures DateOfDay(AddMonths(d, 1)) == Min(d - MonthStart(k) + 1, MonthLength(k + 1))
  {
    DayInMonth(d, k);
  }

  /** Division rounding toward zero, as JavaScript's `Math.trunc(x / d)`. */
  function TruncDiv(x: int, d: int): int
    requires d > 0
  {
    if x >= 0 then x / d else -((-x) / d)
  }

  /**
   * date-fns `differenceInDays(left, right)`: the number of full days
   * between two instants, truncated toward zero.
   */
  function DifferenceInDays(left: Time, right: Time): int {
    TruncDiv(left - right, MsPerDay)
  }

  lemma DivOfMultiplePlus(e: int, s: int)
    requires 0 <= s < MsPerDay
    ensures (e * MsPerDay + s) / MsPerDay == e
  {
  }

  /**
   * Days from `now` to the midnight of `due`, in closed form: the calendar
   * distance, less one when `due` is in the future and now is past midnight.
   */
  lemma DaysUntilMidnight(due: Day, now: Time)
    ensures DifferenceInDays(Midnight(due), now)
         == if due > DayOf(now) && TimeOfDay(now) > 0 then due - DayOf(now) - 1 else due - DayOf(now)
  {
    var q, r := DayOf(now), TimeOfDay(now);
    assert now == q * MsPerDay + r;
    var x := Midnight(due) - now;
    if due > q && r > 0 {
      assert x == (due - q - 1) * MsPerDay + (MsPerDay - r);
      DivOfMultiplePlus(due - q - 1, MsPerDay - r);
    } else if due >= q {
      assert r == 0 || due == q;
      if r == 0 {
        assert x == (due - q) * MsPerDay + 0;
        DivOfMultiplePlus(due - q, 0);
      } else {
        assert -x == 0 * MsPerDay + r;
        DivOfMultiplePlus(0, r);
      }
    } else {
      assert -x == (q - due) * MsPerDay + r;
      DivOfMultiplePlus(q - due, r);
    }
  }

  /** `differenceInDays` never decreases as its left instant moves later. */
  lemma DifferenceInDaysMonotone(a: Time, b: Time, now: Time)
    requires a <= b
    ensures DifferenceInDays(a, now) <= DifferenceInDays(b, now)
  {
    var x, y := a - now, b - now;
    if x < 0 && y >= 0 {
    } else if x < 0 {
      assert (-y) / MsPerDay <= (-x) / MsPerDay by { DivMonotone(-y, -x); }
    } else {
      DivMonotone(x, y);
    }
  }

  lemma DivMonotone(x: int, y: int)
    requires 0 <= x <= y
    ensures x / MsPerDay <= y / MsPerDay
  {
  }

  /** Weekday of a day, Sunday = 0, as `Date.prototype.getDay` (1970-01-01 was a Thursday). */
  function Weekday(d: Day): (w: int)
    ensures 0 <= w < 7
  {
    (d + 4) % 7
  }

  /**
   * The weekdays run in a seven-day cycle anchored on the calendar:
   * 1970-01-01 was a Thursday (4), each next day is the next weekday, and
   * the Sundays are exactly the days a multiple of seven away from
   * Sunday 1970-01-04.
   */
  lemma WeekdayCycle(d: Day)
    ensures Weekday(DayOfCivil(Civil(1970, 1, 1))) == 4
    ensures Weekday(d + 1) == (Weekday(d) + 1) % 7
    ensures Weekday(d) == 0 <==> (d - DayOfCivil(Civil(1970, 1, 4))) % 7 == 0
  {
    assert DayOfCivil(Civil(1970, 1, 1)) == 0 && DayOfCivil(Civil(1970, 1, 4)) == 3;
    var q, m := (d + 4) / 7, (d + 4) % 7;
    assert d + 4 == 7 * q + m && 0 <= m < 7;
    if m < 6 {
      ModOfSplit(d + 5, q, m + 1);
    } else {
      ModOfSplit(d + 5, q + 1, 0);
    }
    ModOfSplit(d - 3, q - 1, m);
  }

  /** The remainder of `x` by 7 read off a split of `x` into sevens and a rest 0..6. */
  lemma ModOfSplit(x: int, q: int, m: int)
    requires x == 7 * q + m && 0 <= m < 7
    ensures x % 7 == m
  {
  }
}
