/**
 * Local calendar dates as JavaScript's `Date` exposes them (`getFullYear`,
 * `getMonth() + 1`, `getDate`, time of day), and the day arithmetic that
 * `date.setDate(date.getDate() + n)` performs: the day of the month may run
 * past the month's end and rolls over into the following months and years.
 */
module Calendar {

  const MillisPerDay: int := 86_400_000

  /** A local date and time; `month` is 1-based, as printed in document numbers. */
  datatype DateTime = DateTime(year: int, month: int, day: int, msOfDay: int)

  /** Gregorian leap years. */
  predicate IsLeapYear(y: int) {
    y % 4 == 0 && (y % 100 != 0 || y % 400 == 0)
  }

  function DaysInYear(y: int): int {
    if IsLeapYear(y) then 366 else 365
  }

  function DaysInMonth(y: int, m: int): (n: int)
    requires 1 <= m <= 12
    ensures 28 <= n <= 31
    ensures n == 29 <==> m == 2 && IsLeapYear(y)
  {
    if m == 2 then (if IsLeapYear(y) then 29 else 28)
    else if m == 4 || m == 6 || m == 9 || m == 11 then 30
    else 31
  }

  /** A date the clock can show: years from 1, a real month and day, a time within the day. */
  predicate Valid(d: DateTime) {
    && 1 <= d.year
    && 1 <= d.month <= 12
    && 1 <= d.day <= DaysInMonth(d.year, d.month)
    && 0 <= d.msOfDay < MillisPerDay
  }

  /** The same time of day on the following calendar day. */
  function NextDay(d: DateTime): (r: DateTime)
    requires Valid(d)
    ensures Valid(r) && r.msOfDay == d.msOfDay
    ensures r.year == d.year || (r.year == d.year + 1 && r.month == 1 && r.day == 1)
  {
    if d.day < DaysInMonth(d.year, d.month) then d.(day := d.day + 1)
    else if d.month < 12 then d.(month := d.month + 1, day := 1)
    else d.(year := d.year + 1, month := 1, day := 1)
  }

  /** `setDate(getDate() + n)`: n calendar days later, same time of day. */
  function AddDays(d: DateTime, n: nat): (r: DateTime)
    requires Valid(d)
    ensures Valid(r) && r.msOfDay == d.msOfDay
    ensures d.year <= r.year
    decreases n
  {
    if n == 0 then d else NextDay(AddDays(d, n - 1))
  }

  /** Days in the years before `y`, counting from 1 January of year 1. */
  function DaysBeforeYear(y: int): nat
    requires 1 <= y
    decreases y
  {
    if y == 1 then 0 else DaysBeforeYear(y - 1) + DaysInYear(y - 1)
  }

  /** Days in the months of year `y` before month `m`. */
  function DaysBeforeMonth(y: int, m: int): nat
    requires 1 <= m <= 12
  {
    var leap := if IsLeapYear(y) && m >= 3 then 1 else 0;
    leap + (match m
            case 1 => 0    case 2 => 31   case 3 => 59   case 4 => 90
            case 5 => 120  case 6 => 151  case 7 => 181  case 8 => 212
            case 9 => 243  case 10 => 273 case 11 => 304 case _ => 334)
  }

  /** The number of whole days from 1 January of year 1 to `d`. */
  function DayNumber(d: DateTime): int
    requires Valid(d)
  {
    DaysBeforeYear(d.year) + DaysBeforeMonth(d.year, d.month) + d.day - 1
  }

  /** Rolling over to the next day advances the day count by exactly one. */
  lemma NextDayIsOneDayLater(d: DateTime)
    requires Valid(d)
    ensures DayNumber(NextDay(d)) == DayNumber(d) + 1
  {
    if d.day == DaysInMonth(d.year, d.month) && d.month == 12 {
      assert DaysBeforeYear(d.year + 1) == DaysBeforeYear(d.year) + DaysInYear(d.year);
    }
  }

  /** `AddDays(d, n)` lies exactly n days after `d`, across month and year ends. */
  lemma {:induction false} AddDaysCountsDays(d: DateTime, n: nat)
    requires Valid(d)
    ensures DayNumber(AddDays(d, n)) == DayNumber(d) + n
    decreases n
  {
    if n > 0 {
      AddDaysCountsDays(d, n - 1);
      NextDayIsOneDayLater(AddDays(d, n - 1));
    }
  }
}
