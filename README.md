# Sun position: date clamping, day count and angle bookkeeping

This project is a Dafny model of the solar-position component of a Unity
daylighting scene (`Assets/Scripts/SunPosition.cs`). The component keeps a
latitude, a longitude and five integer date fields (year, month, day, hour,
minute). Each frame it clamps those fields into a supported window and builds
a `DateTime` from them. From that date it computes the number of days since
J2000.0, then a chain of solar coordinates, and finally an altitude and an
azimuth in degrees.

The model covers the parts of that computation that are integer arithmetic,
state updates or case analysis:

- `calendar.dfy` (module `Calendar`): the Gregorian calendar and the checks
  that the `DateTime(year, month, day, hour, minute, second)` constructor
  applies. The constructor either gives the date or reports
  `ArgumentOutOfRange`. `TruncateToMinute`, `NextDay` and `DaysLater` (the
  date without its seconds, the following calendar day, and the date `n` days
  later) are vocabulary for stating properties, not models of source
  functions.
- `sun_position.dfy` (module `SunPosition`): the component as a class with
  the source's fields. `Dat` clamps the fields in place, in the source's order,
  and then builds the date. `SetNewDate` copies a date into the fields.
  `StoreHorizontal` is the last stage of `CalculateSunPosition`: the azimuth
  quadrant correction and the conversion of both angles to degrees. The pure
  function `Clamp` specifies `Dat`. Lemmas about `Clamp` state idempotence,
  which clamped states the date constructor rejects, and the round trip of
  `SetNewDate` followed by `dat()`.
- `julian_day.dfy` (module `JulianDay`): the day count from J2000.0. Within
  the documented window (1 March 1900 to 28 February 2100) every `(int)` cast
  in the source truncates a positive quotient, so the count is modelled as
  integer division minus the constant 0.5. The lemmas cover the epoch and
  prove that consecutive calendar days get counts exactly 1 apart.
- `angles.dfy` (module `Angles`): `CorrectAngle`, the hour-angle wrap and the
  azimuth quadrant branch, over exact reals. `Pi` is the exact value of the
  double `Math.PI`. The trigonometric functions are not modelled. Each value the
  source gets from `Math.Atan2`, `Math.Atan` or `Math.Asin` is a parameter.
  Parameters are constrained only by the range of the function and, for
  `Math.Atan`, by its sign.

Two predicates carry assumptions and definitions that the rows below rely on.
`Calendar.IsLeapYear` is the Gregorian leap-year rule of .NET `DateTime`.
`Angles.IsAtanOf` is all that is assumed of `Math.Atan` at
SunPosition.cs:203: its value lies in `[-Pi/2, Pi/2]` and has the sign of its
argument.

Three behaviours of the code are easy to misread:

- `CorrectAngle` returns values in the closed interval `[0, 2*Pi]`, matching
  its doc comment at SunPosition.cs:229 ("0 to 2*PI"). An input of exactly
  `2*Pi` is returned unchanged, and exact negative multiples of `2*Pi` become
  `2*Pi`.
- Over exact reals, the stored azimuth lies in `[180, 540)` degrees, because 180 is added
  (SunPosition.cs:216) after the quadrant correction has produced a value in
  `[0, 2*Pi)`.
- The clamp is not calendar-aware. For 30 February, and 29 February of a
  common year, the date construction at SunPosition.cs:132 throws, so `Dat`
  returns `Err(ArgumentOutOfRange)` after the fields have been clamped.

## Model

| member | source | states |
|---|---|---|
| `Calendar.DaysInMonth` | Assets/Scripts/SunPosition.cs:132 | month lengths of the Gregorian calendar: 28 to 31 days, fewer than 30 only in February, 29 in February exactly in leap years, 31 exactly in the seven long months |
| `Calendar.MakeDateTime` | Assets/Scripts/SunPosition.cs:132 | the `DateTime` constructor fails exactly when a field is outside its range or the day is past the month's end; on success the date has exactly the given fields |
| `JulianDay.TruncatedQuotient` | Assets/Scripts/SunPosition.cs:142-144 | truncating the real quotient of a non-negative integer by a positive one gives the integer quotient |
| `JulianDay.DayNumber` | Assets/Scripts/SunPosition.cs:141-145 | the count at noon of the date: it equals the source's expression plus 0.5, with each `(int)` cast read as truncation of the real quotient; for the positive operands of a `DateTime` that truncation is integer division. Its properties are stated by `J2000Epoch`, `ConsecutiveDays` and `DayCountAdvances` |
| `JulianDay.JulianDate` | Assets/Scripts/SunPosition.cs:141-145 | the count at 0:00 is that noon count minus 0.5, so it lies half-way between whole numbers, since days of the count begin at noon |
| `JulianDay.TotalHours` | Assets/Scripts/SunPosition.cs:153 | the time of day in hours lies in `[0, 24)` |
| `JulianDay.RefinedJulianDate` | Assets/Scripts/SunPosition.cs:158 | adding the fraction of the day keeps the count within the day that starts at the date's count, and leaves it unchanged only at midnight |
| `JulianDay.J2000Epoch` | Assets/Scripts/SunPosition.cs:140-145 | 2000-01-01 at 0:00 is day -0.5, and 12:00 UT that day is day 0 |
| `JulianDay.WindowEndsAtFebruaryOf1900And2100` | Assets/Scripts/SunPosition.cs:14-15 | the method counts 1900 and 2100 as leap years, so 1 March lands two days after 28 February in both, although neither is a Gregorian leap year: the reason the window runs from 1 March 1900 to 28 February 2100 |
| `JulianDay.LeapYearsInWindow` | Assets/Scripts/SunPosition.cs:14-15 | between 1901 and 2099 the Gregorian leap years are exactly the years divisible by 4 |
| `JulianDay.MarchStep` | Assets/Scripts/SunPosition.cs:141-143 | the year term grows by 1 when March begins in a year divisible by 4 and by 2 otherwise |
| `JulianDay.MonthStep` | Assets/Scripts/SunPosition.cs:141-145 | for months 1 to 11, with February only in 1901 to 2099: the first day of the next month is counted one day after the last day of the month |
| `JulianDay.ConsecutiveDays` | Assets/Scripts/SunPosition.cs:141-145 | inside the documented window, a date and the day after it have day counts exactly 1 apart, across month ends, year ends and 29 February |
| `JulianDay.DayCountAdvances` | Assets/Scripts/SunPosition.cs:141-145 | inside the documented window, the day count of the date `n` days later is exactly `n` higher, so the count measures elapsed days |
| `Angles.Abs` | Assets/Scripts/SunPosition.cs:238 | `Math.Abs`: the result is non-negative and is the input or its negation |
| `Angles.Truncate` | Assets/Scripts/SunPosition.cs:238-242 | rounding towards zero, as used inside the C# `%` on doubles: the result is the whole number between zero and the input that is less than one away from it |
| `Angles.RemTurn` | Assets/Scripts/SunPosition.cs:238-242 | `x % (2 * Math.PI)` differs from `x` by whole turns, has the sign of `x` and is less than one turn from zero |
| `Angles.CorrectAngle` | Assets/Scripts/SunPosition.cs:234-248 | the result differs from the input by whole turns and lies in `[0, 2*Pi]`; inputs already in that interval are kept, inputs above it land in `[0, 2*Pi)`, negative inputs land in `(0, 2*Pi]` |
| `Angles.CanonicalInTurn` | Assets/Scripts/SunPosition.cs:225-230 | two angles of `[0, 2*Pi]` that differ by whole turns are equal or are 0 and `2*Pi`, so the contract of `CorrectAngle` determines its result up to that choice |
| `Angles.CorrectAngleNegativeTurns` | Assets/Scripts/SunPosition.cs:236-238 | an exact negative multiple of `2*Pi` is corrected to `2*Pi`, not to 0 |
| `Angles.CorrectAngleFullTurn` | Assets/Scripts/SunPosition.cs:240-247 | `2*Pi` and 0 are both returned unchanged |
| `Angles.CorrectAngleIdempotent` | Assets/Scripts/SunPosition.cs:234-248 | correcting an angle twice gives the same result as correcting it once |
| `Angles.HourAngle` | Assets/Scripts/SunPosition.cs:185-190 | with a right ascension in `[-Pi, Pi]`, the one-step wrap leaves the hour angle in `[-Pi, Pi]`, differing from sidereal time minus right ascension by whole turns |
| `Angles.AzimuthQuadrant` | Assets/Scripts/SunPosition.cs:203-212 | with a nonzero denominator, the corrected azimuth lies in `[0, 2*Pi)`, in the quadrant given by the signs of denominator and numerator, and differs from the arctangent by whole half-turns |
| `Angles.AzimuthDegrees` | Assets/Scripts/SunPosition.cs:215-216 | over exact reals, the stored azimuth lies in `[180, 540)` degrees |
| `Angles.AltitudeDegrees` | Assets/Scripts/SunPosition.cs:192-214 | the altitude in degrees lies in `[-90, 90]` and has the sign of the arcsine |
| `SunPosition.ClampField` | Assets/Scripts/SunPosition.cs:92-131 | a field's correction is the point of its interval nearest to the old value: in-range values are kept, others become the nearer bound |
| `SunPosition.Clamp` | Assets/Scripts/SunPosition.cs:92-131 | the clamped fields lie in the supported window (years 1900 to 2100, months 1 to 12, days 1 to 30, hours 0 to 23, minutes 0 to 59), and fields already there are unchanged |
| `SunPosition.DateOf` | Assets/Scripts/SunPosition.cs:132 | a date built from the fields carries exactly those fields, with seconds 0 |
| `SunPosition.FieldsOf` | Assets/Scripts/SunPosition.cs:81-85 | the copied fields rebuild the original date truncated to the minute |
| `SunPosition.ClampIdempotent` | Assets/Scripts/SunPosition.cs:92-131 | a second `dat()` changes nothing |
| `SunPosition.ClampedDateAccepted` | Assets/Scripts/SunPosition.cs:108-132 | a clamped state is rejected by the date constructor exactly when it is 30 February, or 29 February of a common year; otherwise it becomes that date |
| `SunPosition.ThirtyFirstBecomesThirtieth` | Assets/Scripts/SunPosition.cs:108-111 | day 31 or more always becomes 30, whatever the month, also in 31-day months, and when the clamped month is not February the result is accepted |
| `SunPosition.FebruaryDaysRejected` | Assets/Scripts/SunPosition.cs:108-132 | 30 February 2023 and 29 February 2023 survive the clamp and are rejected; 29 February 2024 is accepted |
| `SunPosition.SetThenClampRoundTrip` | Assets/Scripts/SunPosition.cs:79-132 | after `SetNewDate(t)` the clamp changes nothing exactly when `t`'s year is in 1900 to 2100 and its day is at most 30, and then `dat()` returns `t` truncated to the minute; the date construction throws exactly for 29 February of a year outside 1900 to 2100 |
| `SunPosition.SunPosition.constructor` | Assets/Scripts/SunPosition.cs:31-39 | the field initialisers: London, 21 March 2017 at 9:00, angles 0, default date |
| `SunPosition.SunPosition.SetNewDate` | Assets/Scripts/SunPosition.cs:79-86 | copies exactly year, month, day, hour and minute of the date, and nothing else |
| `SunPosition.SunPosition.Dat` | Assets/Scripts/SunPosition.cs:90-133 | clamps each field independently in place to its nearest bound, leaves latitude, longitude and the angles alone, and returns the date built from the clamped fields or `ArgumentOutOfRange` |
| `SunPosition.SunPosition.UpdateDate` | Assets/Scripts/SunPosition.cs:68-70 | `date = dat()`: the fields are clamped; `date` becomes the built date, or keeps its old value when construction throws |
| `SunPosition.SunPosition.StoreHorizontal` | Assets/Scripts/SunPosition.cs:192-216 | the stored altitude is the arcsine in degrees, within `[-90, 90]`; the stored azimuth is the quadrant-corrected arctangent in degrees plus 180, within `[180, 540)` |
| `SunPosition.SetDateAndUpdate` | Assets/Scripts/SunControlUI_.cs:178-180 | `SetNewDate(t)` then `UpdateDateTime()`: the fields become the clamp of `t`'s fields and the result is the date built from them; `date` becomes that date, or keeps its old value when construction throws, and then azimuth and altitude keep their old values too; for a year in 1900 to 2100 and a day up to 30, the component ends up holding `t` truncated to the minute |

## Left out

- The trigonometric solar-coordinate chain (SunPosition.cs:147-152, 155, 159-183, 192-194, 198-201) is left out. This covers the Julian centuries, the sidereal time, the mean longitude, the mean anomaly, the equation of centre, the obliquity, the right ascension and the declination. It is floating-point numerics over `Math.Sin`, `Math.Cos`, `Math.Tan`, `Math.Asin` and `Math.Atan2`. Its results enter the model only as parameters constrained by the ranges of those functions. The time-of-day term (line 153, `TotalHours`) and the refinement of the count by the fraction of the day (line 158, `RefinedJulianDate`) are modelled.
- `Math.Atan` is assumed only to return a value in `[-Pi/2, Pi/2]` with the sign of its argument. This is the closed interval, because the double result can equal `Math.PI / 2`.
- The conversion `dateTime.ToUniversalTime()` (SunPosition.cs:138) depends on the host time zone. The day count is modelled on fields that are already UTC.
- IEEE double rounding is not modelled. All angle arithmetic is exact over reals, including `Deg2Rad`, `Rad2Deg`, the subtraction in `CorrectAngle` and the `%` remainder.
- A zero azimuth denominator (SunPosition.cs:203) divides by zero and yields infinities or NaN. It is excluded by the precondition `den != 0`.
- `Start`, `Update` and the `transform.eulerAngles` assignment (SunPosition.cs:49-73) are engine lifecycle and rendering. `UpdateDate` models only the `date = dat()` step of `UpdateDateTime`. The call to `CalculateSunPosition` is represented only by `StoreHorizontal`.
- Sub-second ticks and the `Kind` of a `DateTime` are not modelled. A date carries fields down to the second.
- `SunControlUI_.cs`, `SceneCameraController.cs`, `ToggleManager.cs` and `CameraSwitcher.cs` are UI widgets, camera input and visibility toggles. They are not part of this model, except for the `SetNewDate`-then-`UpdateDateTime` sequence in `SetDateAndUpdate`.
