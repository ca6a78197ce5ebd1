/**
 * The `SunPosition` component: the date and time fields it keeps, the
 * clamping of those fields before a date is built from them, the setter
 * that copies a date into them, and the final stores of altitude and
 * azimuth.
 */
module SunPosition {
  import opened Calendar
  import opened Angles

  /** The five integer date fields of the component; seconds are always 0. */
  datatype CivilFields = CivilFields(year: int, month: int, day: int, hour: int, minute: int)

  /** The supported window: years 1900 to 2100 and days 1 to 30 in every month. */
  predicate InSupportedRange(f: CivilFields) {
    && 1900 <= f.year <= 2100
    && 1 <= f.month <= 12
    && 1 <= f.day <= 30
    && 0 <= f.hour <= 23
    && 0 <= f.minute <= 59
  }

  function Distance(a: int, b: int): nat {
    if a <= b then b - a else a - b
  }

  /**
   * One field's correction: the value of `[lo, hi]` nearest to `x`. A value
   * inside the interval is kept and a value outside becomes the nearer bound.
   */
  function ClampField(x: int, lo: int, hi: int): (r: int)
    requires lo <= hi
    ensures lo <= r <= hi
    ensures lo <= x <= hi ==> r == x
    ensures forall y :: lo <= y <= hi ==> Distance(r, x) <= Distance(y, x)
  {
    if x < lo then lo else if x > hi then hi else x
  }

  /**
   * The correction `dat()` applies: each field is clamped on its own, with
   * no regard for the month's real length. The result is in the supported
   * window, and fields already there are left alone.
   */
  function Clamp(f: CivilFields): (c: CivilFields)
    ensures InSupportedRange(c)
    ensures InSupportedRange(f) ==> c == f
  {
    CivilFields(
      ClampField(f.year, 1900, 2100),
      ClampField(f.month, 1, 12),
      ClampField(f.day, 1, 30),
      ClampField(f.hour, 0, 23),
      ClampField(f.minute, 0, 59))
  }

  /** `new DateTime(year, month, day, hour, minute, 0)` on the fields. */
  function DateOf(f: CivilFields): (r: Result<DateTime>)
    ensures r.Ok? ==> r.value == DateTimeParts(f.year, f.month, f.day, f.hour, f.minute, 0)
  {
    MakeDateTime(f.year, f.month, f.day, f.hour, f.minute, 0)
  }

  /** The fields `SetNewDate` copies out of a `DateTime`. */
  function FieldsOf(t: DateTime): (f: CivilFields)
    ensures DateOf(f) == Ok(TruncateToMinute(t))
  {
    CivilFields(t.year, t.month, t.day, t.hour, t.minute)
  }

  /** Clamping twice is clamping once. */
  lemma ClampIdempotent(f: CivilFields)
    ensures Clamp(Clamp(f)) == Clamp(f)
  {
  }

  /**
   * The clamp does not know the calendar: a clamped state is rejected by the
   * date construction exactly when it is 30 February, or 29 February of a
   * common year. Every other clamped state becomes that very date.
   */
  lemma ClampedDateAccepted(f: CivilFields)
    ensures var c := Clamp(f);
      DateOf(c).Err? <==> c.month == 2 && (c.day == 30 || (c.day == 29 && !IsLeapYear(c.year)))
    ensures var c := Clamp(f);
      DateOf(c).Ok? ==> DateOf(c).value == DateTimeParts(c.year, c.month, c.day, c.hour, c.minute, 0)
  {
    var c := Clamp(f);
    assert 1 <= c.month <= 12;
  }

  /** Day 31 becomes day 30 whatever the month, even in months that have 31 days. */
  lemma ThirtyFirstBecomesThirtieth(f: CivilFields)
    requires f.day >= 31
    ensures Clamp(f).day == 30
    ensures Clamp(f).month != 2 ==> DateOf(Clamp(f)).Ok?
  {
    ClampedDateAccepted(f);
  }

  /** 30 February and 29 February 2023 pass the clamp and are then rejected. */
  lemma FebruaryDaysRejected()
    ensures Clamp(CivilFields(2023, 2, 30, 12, 0)) == CivilFields(2023, 2, 30, 12, 0)
    ensures DateOf(Clamp(CivilFields(2023, 2, 30, 12, 0))) == Err(ArgumentOutOfRange)
    ensures DateOf(Clamp(CivilFields(2023, 2, 29, 12, 0))) == Err(ArgumentOutOfRange)
    ensures DateOf(Clamp(CivilFields(2024, 2, 29, 12, 0))).Ok?
  {
  }

  /**
   * `SetNewDate` followed by `dat()` gives back the date truncated to the
   * minute exactly when its year is within 1900 to 2100 and its day is at
   * most 30; otherwise the clamp changes the fields. The date construction
   * throws only for 29 February of a year outside 1900 to 2100, whose clamped
   * year 1900 or 2100 is a common year.
   */
  lemma SetThenClampRoundTrip(t: DateTime)
    ensures Clamp(FieldsOf(t)) == FieldsOf(t) <==> 1900 <= t.year <= 2100 && t.day <= 30
    ensures 1900 <= t.year <= 2100 && t.day <= 30 ==> DateOf(Clamp(FieldsOf(t))) == Ok(TruncateToMinute(t))
    ensures DateOf(Clamp(FieldsOf(t))).Err? <==> t.month == 2 && t.day == 29 && (t.year < 1900 || t.year > 2100)
  {
    ClampedDateAccepted(FieldsOf(t));
    if Clamp(FieldsOf(t)) == FieldsOf(t) {
      assert InSupportedRange(Clamp(FieldsOf(t)));
    }
  }

  class SunPosition {
    var lat: real
    var lon: real
    var year: int
    var month: int
    var day: int
    var hour: int
    var minute: int
    var azimuth: real
    var altitude: real
    var date: DateTime

    /** The field initialisers: a position in London and 21 March 2017, 9:00. */
    constructor ()
      ensures lat == 51.549090 && lon == -0.074478
      ensures Fields() == CivilFields(2017, 3, 21, 9, 0)
      ensures azimuth == 0.0 && altitude == 0.0
      ensures date == DateTimeParts(1, 1, 1, 0, 0, 0)
    {
      lat, lon := 51.549090, -0.074478;
      year, month, day, hour, minute := 2017, 3, 21, 9, 0;
      azimuth, altitude := 0.0, 0.0;
      date := DateTimeParts(1, 1, 1, 0, 0, 0);
    }

    function Fields(): CivilFields
      reads this
    {
      CivilFields(year, month, day, hour, minute)
    }

    /**
     * `SetNewDate`: copies year, month, day, hour and minute out of `t` and
     * touches nothing else.
     */
    method SetNewDate(t: DateTime)
      modifies this`year, this`month, this`day, this`hour, this`minute
      ensures Fields() == FieldsOf(t)
    {
      year := t.year;
      month := t.month;
      day := t.day;
      hour := t.hour;
      minute := t.minute;
    }

    /**
     * `dat()`: clamps the five fields in place, one after another, then builds
     * the date with seconds at 0. The new fields are `Clamp` of the old ones,
     * so they lie in the supported window, and the result is that date, or
     * `ArgumentOutOfRange` when the clamped day does not exist in its month.
     * Latitude, longitude and the angles are not touched.
     */
    method Dat() returns (r: Result<DateTime>)
      modifies this`year, this`month, this`day, this`hour, this`minute
      ensures year == ClampField(old(year), 1900, 2100)
      ensures month == ClampField(old(month), 1, 12)
      ensures day == ClampField(old(day), 1, 30)
      ensures hour == ClampField(old(hour), 0, 23)
      ensures minute == ClampField(old(minute), 0, 59)
      ensures Fields() == Clamp(old(Fields()))
      ensures r == DateOf(Fields())
    {
      if year < 1900 {
        year := 1900;
      }
      if year > 2100 {
        year := 2100;
      }
      if month < 1 {
        month := 1;
      }
      if month > 12 {
        month := 12;
      }
      if day > 30 {
        day := 30;
      }
      if day < 1 {
        day := 1;
      }
      if hour < 0 {
        hour := 0;
      }
      if hour > 23 {
        hour := 23;
      }
      if minute < 0 {
        minute := 0;
      }
      if minute > 59 {
        minute := 59;
      }
      assert Fields() == Clamp(old(Fields()));
      r := MakeDateTime(year, month, day, hour, minute, 0);
    }

    /**
     * The date part of `UpdateDateTime`: `date = dat()`. When the date
     * construction throws, the fields are already clamped and `date` keeps
     * its old value.
     */
    method UpdateDate() returns (r: Result<DateTime>)
      modifies this`year, this`month, this`day, this`hour, this`minute, this`date
      ensures Fields() == Clamp(old(Fields()))
      ensures r == DateOf(Fields())
      ensures date == if r.Ok? then r.value else old(date)
    {
      r := Dat();
      if r.Ok? {
        date := r.value;
      }
    }

    /**
     * The end of `CalculateSunPosition`: stores the altitude, computes the
     * azimuth from `Math.Atan(num / den)` with the quadrant correction, and
     * converts both to degrees, adding 180 to the azimuth. `asinValue` and
     * `atanValue` stand for the results of `Math.Asin` and `Math.Atan`.
     */
    method StoreHorizontal(asinValue: real, num: real, den: real, atanValue: real)
      requires -HalfPi <= asinValue <= HalfPi
      requires den != 0.0 && IsAtanOf(num / den, atanValue)
      modifies this`altitude, this`azimuth
      ensures altitude == AltitudeDegrees(asinValue) && -90.0 <= altitude <= 90.0
      ensures azimuth == AzimuthDegrees(num, den, atanValue) && 180.0 <= azimuth < 540.0
    {
      altitude := asinValue;
      azimuth := atanValue;
      if den < 0.0 {
        azimuth := azimuth + Pi;
      } else if num < 0.0 {
        azimuth := azimuth + 2.0 * Pi;
      }
      altitude := altitude * Rad2Deg;
      azimuth := azimuth * Rad2Deg;
      azimuth := azimuth + 180.0;
    }
  }

  /**
   * What the time controls do: `SetNewDate(t)` and then `UpdateDateTime()`.
   * The fields end up as the clamp of `t`'s fields, and `date` as the date
   * built from them unless that construction throws; when it throws, the
   * solar computation is skipped and the angles keep their values. For a year within 1900
   * to 2100 and a day up to 30, the component ends up holding `t` truncated
   * to the minute.
   */
  method SetDateAndUpdate(sun: SunPosition, t: DateTime) returns (r: Result<DateTime>)
    modifies sun
    ensures sun.Fields() == Clamp(FieldsOf(t)) && r == DateOf(sun.Fields())
    ensures sun.date == if r.Ok? then r.value else old(sun.date)
    ensures r.Err? ==> sun.azimuth == old(sun.azimuth) && sun.altitude == old(sun.altitude)
    ensures 1900 <= t.year <= 2100 && t.day <= 30 ==>
      r == Ok(TruncateToMinute(t)) && sun.date == TruncateToMinute(t) && sun.Fields() == FieldsOf(t)
    ensures sun.lat == old(sun.lat) && sun.lon == old(sun.lon)
  {
    sun.SetNewDate(t);
    r := sun.UpdateDate();
    SetThenClampRoundTrip(t);
  }
}
