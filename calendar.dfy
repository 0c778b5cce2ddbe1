/**
 * Civil UTC time as the templates use it: `time.Now().UTC()` gives an
 * instant, and `AddDate(years, 0, 0)` moves it by whole years. Go keeps the
 * month, day and time of day and normalises an impossible date, so 29
 * February moved into a common year becomes 1 March.
 */
module Calendar {

  const NanosPerDay: int := 86_400_000_000_000

  /** A proleptic Gregorian date and the nanoseconds elapsed since midnight UTC. */
  datatype Instant = Instant(year: int, month: int, day: int, nanos: int)

  predicate IsLeap(year: int) {
    year % 4 == 0 && (year % 100 != 0 || year % 400 == 0)
  }

  function DaysIn(year: int, month: int): int
    requires 1 <= month <= 12
  {
    if month == 2 then (if IsLeap(year) then 29 else 28)
    else if month == 4 || month == 6 || month == 9 || month == 11 then 30
    else 31
  }

  predicate ValidInstant(t: Instant) {
    && 1 <= t.month <= 12
    && 1 <= t.day <= DaysIn(t.year, t.month)
    && 0 <= t.nanos < NanosPerDay
  }

  /** An instant that can be read from the clock; Go's zero time is the witness. */
  type Time = t: Instant | ValidInstant(t) witness Instant(1, 1, 1, 0)

  /** `a.Before(b)`: strictly earlier. */
  predicate Before(a: Time, b: Time) {
    || a.year < b.year
    || (a.year == b.year && a.month < b.month)
    || (a.year == b.year && a.month == b.month && a.day < b.day)
    || (a.year == b.year && a.month == b.month && a.day == b.day && a.nanos < b.nanos)
  }

  predicate IsLeapDay(t: Time) {
    t.month == 2 && t.day == 29
  }

  /** `t.AddDate(years, 0, 0)`, with Go's normalisation of 29 February. */
  function AddYears(t: Time, years: int): (r: Time)
    ensures r.year == t.year + years && r.nanos == t.nanos
    ensures !IsLeapDay(t) || IsLeap(r.year) ==> r.month == t.month && r.day == t.day
    ensures IsLeapDay(t) && !IsLeap(r.year) ==> r.month == 3 && r.day == 1
  {
    if IsLeapDay(t) && !IsLeap(t.year + years) then Instant(t.year + years, 3, 1, t.nanos)
    else t.(year := t.year + years)
  }

  /**
   * The sign of the shift decides the order: a positive number of years
   * lands strictly later, zero lands on the same instant, a negative number
   * strictly earlier. Nothing keeps a caller from passing a negative shift.
   */
  lemma AddYearsOrder(t: Time, years: int)
    ensures years > 0 ==> Before(t, AddYears(t, years))
    ensures years == 0 ==> AddYears(t, years) == t
    ensures years < 0 ==> Before(AddYears(t, years), t)
  {
  }

  /**
   * Shifting by the same number of years keeps the order of two instants,
   * except when the earlier one is a 29 February that is normalised away.
   */
  lemma AddYearsMonotone(a: Time, b: Time, years: int)
    requires !Before(b, a)
    requires !IsLeapDay(a) || IsLeap(a.year + years)
    ensures !Before(AddYears(b, years), AddYears(a, years))
  {
  }

  /**
   * The exception is real: the last nanosecond of 29 February 2024 precedes
   * the first of 1 March 2024, but one year later the order is reversed.
   */
  lemma LeapDayBreaksMonotonicity()
    ensures var a := Instant(2024, 2, 29, NanosPerDay - 1);
            var b := Instant(2024, 3, 1, 0);
            ValidInstant(a) && ValidInstant(b) && Before(a, b) && Before(AddYears(b, 1), AddYears(a, 1))
  {
  }
}
