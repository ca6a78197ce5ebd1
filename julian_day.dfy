/**
 * The day count of the sun-position solver: days elapsed since the J2000.0
 * epoch (2000-01-01 12:00 UT), computed from the calendar fields with the
 * day-count method of the solver's reference. Every `(int)` cast of the
 * source truncates a positive quotient, so it is the integer division
 * written here.
 */
module JulianDay {
  import opened Calendar
  import Angles

  /** Truncating the real quotient of two non-negative integers is integer division. */
  lemma TruncatedQuotient(a: int, b: int)
    requires a >= 0 && b > 0
    ensures Angles.Truncate(a as real / b as real) == a / b
  {
    var q, r := a / b, a % b;
    assert a == q * b + r && 0 <= r < b;
    assert a as real / b as real == q as real + r as real / b as real;
    assert 0.0 <= r as real / b as real < 1.0;
  }

  /**
   * The day count at noon of the date: the source's expression plus 0.5.
   * Each `(int)` cast there truncates a quotient of positive doubles, and
   * that truncation equals the integer division used here.
   */
  function DayNumber(year: int, month: int, day: int): (n: int)
    requires year >= 1 && 1 <= month <= 12
    ensures n == 367 * year
      - Angles.Truncate((7.0 / 4.0) * (year as real + Angles.Truncate((month as real + 9.0) / 12.0) as real))
      + Angles.Truncate((275.0 * month as real) / 9.0)
      + day - 730531
  {
    TruncatedQuotient(month + 9, 12);
    TruncatedQuotient(7 * (year + (month + 9) / 12), 4);
    TruncatedQuotient(275 * month, 9);
    assert (7.0 / 4.0) * (year as real + ((month + 9) / 12) as real) == (7 * (year + (month + 9) / 12)) as real / 4.0;
    367 * year - (7 * (year + (month + 9) / 12)) / 4 + (275 * month) / 9 + day - 730531
  }

  /**
   * The day count of the date of `t` at 0:00, as first computed by the
   * solver. Days of the count begin at noon, so midnight falls half-way
   * between two whole numbers.
   */
  function JulianDate(t: DateTime): (jd: real)
    ensures (jd + 0.5).Floor as real == jd + 0.5
  {
    DayNumber(t.year, t.month, t.day) as real - 0.5
  }

  /** `TimeOfDay.TotalHours`: the time since midnight in hours. */
  function TotalHours(t: DateTime): (h: real)
    ensures 0.0 <= h < 24.0
  {
    t.hour as real + t.minute as real / 60.0 + t.second as real / 3600.0
  }

  /**
   * The day count refined by the fraction of the day that has elapsed. It
   * stays within the day that begins at `JulianDate(t)`.
   */
  function RefinedJulianDate(t: DateTime): (jd: real)
    ensures JulianDate(t) <= jd < JulianDate(t) + 1.0
    ensures jd == JulianDate(t) <==> (t.hour, t.minute, t.second) == (0, 0, 0)
  {
    JulianDate(t) + TotalHours(t) / 24.0
  }

  /** The dates from 1 March 1900 to 28 February 2100, for which the method is documented. */
  predicate InDocumentedWindow(t: DateTimeParts) {
    !DateBefore(t.year, t.month, t.day, 1900, 3, 1) && !DateBefore(2100, 2, 28, t.year, t.month, t.day)
  }

  /** The J2000.0 epoch: 2000-01-01 at 0:00 is day -0.5, and at 12:00 UT it is day 0. */
  lemma J2000Epoch()
    ensures JulianDate(DateTimeParts(2000, 1, 1, 0, 0, 0)) == -0.5
    ensures RefinedJulianDate(DateTimeParts(2000, 1, 1, 12, 0, 0)) == 0.0
  {
  }

  /**
   * The method counts 1900 and 2100 as leap years, so it places 1 March two
   * days after 28 February in both: the reason the documented window starts
   * on 1 March 1900 and ends on 28 February 2100.
   */
  lemma WindowEndsAtFebruaryOf1900And2100()
    ensures DayNumber(1900, 3, 1) == DayNumber(1900, 2, 28) + 2
    ensures DayNumber(2100, 3, 1) == DayNumber(2100, 2, 28) + 2
    ensures !IsLeapYear(1900) && !IsLeapYear(2100)
  {
  }

  /** Within the window the Gregorian leap years are the years divisible by 4. */
  lemma LeapYearsInWindow(year: int)
    requires 1901 <= year <= 2099
    ensures IsLeapYear(year) <==> year % 4 == 0
  {
  }

  /** The jump of the year term when March begins is 1 in leap years and 2 otherwise. */
  lemma MarchStep(year: int)
    requires year >= 1
    ensures (7 * (year + 1)) / 4 - (7 * year) / 4 == if year % 4 == 0 then 1 else 2
  {
    var q, r := year / 4, year % 4;
    assert year == 4 * q + r;
    assert 7 * year == 4 * (7 * q) + 7 * r;
    assert 7 * (year + 1) == 4 * (7 * q) + 7 * r + 7;
    if r == 0 {
      assert (7 * year) / 4 == 7 * q;
      assert (7 * (year + 1)) / 4 == 7 * q + 1;
    } else if r == 1 {
      assert (7 * year) / 4 == 7 * q + 1;
      assert (7 * (year + 1)) / 4 == 7 * q + 3;
    } else if r == 2 {
      assert (7 * year) / 4 == 7 * q + 3;
      assert (7 * (year + 1)) / 4 == 7 * q + 5;
    } else {
      assert (7 * year) / 4 == 7 * q + 5;
      assert (7 * (year + 1)) / 4 == 7 * q + 7;
    }
  }

  /**
   * For months 1 to 11, with February only in 1901 to 2099: the first day of
   * the next month is counted one day after the last day of the month.
   */
  lemma MonthStep(year: int, month: int)
    requires year >= 1 && 1 <= month < 12
    requires month == 2 ==> 1901 <= year <= 2099
    ensures DayNumber(year, month + 1, 1) == DayNumber(year, month, DaysInMonth(year, month)) + 1
  {
    var k, k' := (month + 9) / 12, (month + 10) / 12;
    var step := (275 * (month + 1)) / 9 - (275 * month) / 9;
    if month == 2 {
      assert k == 0 && k' == 1 && step == 30;
      MarchStep(year);
      LeapYearsInWindow(year);
    } else {
      assert k == k';
      assert step == DaysInMonth(year, month) by {
        if month == 1 { assert step == 31; }
        else if month < 8 { assert step == if month % 2 == 1 then 31 else 30; }
        else { assert step == if month % 2 == 0 then 31 else 30; }
      }
    }
    var last := DaysInMonth(year, month);
    assert DayNumber(year, month + 1, 1) == 367 * year - (7 * (year + k')) / 4 + (275 * (month + 1)) / 9 + 1 - 730531;
    assert DayNumber(year, month, last) == 367 * year - (7 * (year + k)) / 4 + (275 * month) / 9 + last - 730531;
  }

  /**
   * Consecutive calendar days inside the documented window have day counts
   * exactly one apart, across month ends, year ends and 29 February.
   */
  lemma ConsecutiveDays(t: DateTime)
    requires InDocumentedWindow(t) && InDocumentedWindow(NextDay(t))
    ensures NextDay(t).Valid()
    ensures JulianDate(NextDay(t)) == JulianDate(t) + 1.0
  {
    if t.day == DaysInMonth(t.year, t.month) && t.month < 12 {
      MonthStep(t.year, t.month);
    }
  }

  /**
   * Across any stretch of the documented window the day count grows by
   * exactly the number of days elapsed: `n` days later it is `n` higher.
   */
  lemma {:induction false} DayCountAdvances(t: DateTime, n: nat)
    requires InDocumentedWindow(t) && InDocumentedWindow(DaysLater(t, n))
    ensures JulianDate(DaysLater(t, n)) == JulianDate(t) + n as real
    decreases n
  {
    if n > 0 {
      var u := NextDay(t);
      assert InDocumentedWindow(u);
      ConsecutiveDays(t);
      DayCountAdvances(u, n - 1);
    }
  }
}
