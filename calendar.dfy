/**
 * The slice of the .NET `DateTime` value type that the sun-position component
 * relies on: the proleptic Gregorian calendar, the checks the
 * `DateTime(year, month, day, hour, minute, second)` constructor performs, and
 * the successor day used to state properties of the day count.
 */
module Calendar {

  /** The only failure the constructor reports: `ArgumentOutOfRangeException`. */
  datatype DateError = ArgumentOutOfRange

  datatype Result<+T> = Ok(value: T) | Err(error: DateError)

  /** Gregorian leap years: every fourth year, except centuries not divisible by 400. */
  predicate IsLeapYear(year: int) {
    year % 4 == 0 && (year % 100 != 0 || year % 400 == 0)
  }

  function DaysInMonth(year: int, month: int): (n: int)
    requires 1 <= month <= 12
    ensures 28 <= n <= 31
    ensures n < 30 <==> month == 2
    ensures month == 2 ==> (n == 29 <==> IsLeapYear(year))
    ensures n == 31 <==> month in {1, 3, 5, 7, 8, 10, 12}
  {
    if month == 2 then (if IsLeapYear(year) then 29 else 28)
    else if month in {4, 6, 9, 11} then 30
    else 31
  }

  /** The calendar fields of a `DateTime`, seconds included, sub-second ticks left out. */
  datatype DateTimeParts = DateTimeParts(year: int, month: int, day: int, hour: int, minute: int, second: int)
  {
    /** What every `DateTime` value satisfies: years 1 to 9999 and a real calendar day and time. */
    predicate Valid() {
      && 1 <= year <= 9999
      && 1 <= month <= 12
      && 1 <= day <= DaysInMonth(year, month)
      && 0 <= hour <= 23
      && 0 <= minute <= 59
      && 0 <= second <= 59
    }
  }

  type DateTime = t: DateTimeParts | t.Valid() witness DateTimeParts(1, 1, 1, 0, 0, 0)

  /**
   * `new DateTime(year, month, day, hour, minute, second)`: the value with
   * exactly these fields, or `ArgumentOutOfRange` when they name no real
   * instant of the calendar.
   */
  function MakeDateTime(year: int, month: int, day: int, hour: int, minute: int, second: int): (r: Result<DateTime>)
    ensures r.Ok? ==> r.value == DateTimeParts(year, month, day, hour, minute, second)
    ensures r.Err? <==>
      || year < 1 || year > 9999 || month < 1 || month > 12
      || hour < 0 || hour > 23 || minute < 0 || minute > 59 || second < 0 || second > 59
      || day < 1 || day > DaysInMonth(year, month)
  {
    var t := DateTimeParts(year, month, day, hour, minute, second);
    if t.Valid() then Ok(t) else Err(ArgumentOutOfRange)
  }

  /** The same instant with the seconds dropped. */
  function TruncateToMinute(t: DateTime): (u: DateTime)
    ensures u.second == 0
    ensures (u.year, u.month, u.day, u.hour, u.minute) == (t.year, t.month, t.day, t.hour, t.minute)
  {
    t.(second := 0)
  }

  /** Lexicographic order on the calendar date (year, month, day), time of day ignored. */
  predicate DateBefore(y1: int, m1: int, d1: int, y2: int, m2: int, d2: int) {
    y1 < y2 || (y1 == y2 && (m1 < m2 || (m1 == m2 && d1 < d2)))
  }

  /** The same time of day on the following calendar day. */
  function NextDay(t: DateTime): (u: DateTimeParts)
    ensures t.year < 9999 ==> u.Valid()
    ensures DateBefore(t.year, t.month, t.day, u.year, u.month, u.day)
    ensures u.year <= t.year + 1
    ensures (u.hour, u.minute, u.second) == (t.hour, t.minute, t.second)
  {
    if t.day < DaysInMonth(t.year, t.month) then t.(day := t.day + 1)
    else if t.month < 12 then t.(month := t.month + 1, day := 1)
    else t.(year := t.year + 1, month := 1, day := 1)
  }

  /**
   * The same time of day `n` calendar days after `t`. Counting stops at the
   * last year a `DateTime` can hold.
   */
  function DaysLater(t: DateTime, n: nat): (u: DateTime)
    ensures t.year <= u.year <= t.year + n
    ensures n == 0 ==> u == t
    ensures n > 0 && t.year < 9999 ==> DateBefore(t.year, t.month, t.day, u.year, u.month, u.day)
    decreases n
  {
    if n == 0 || t.year >= 9999 then t else DaysLater(NextDay(t), n - 1)
  }
}
