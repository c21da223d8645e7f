/** The proleptic Gregorian calendar, counted in days from 1970-01-01. */
module Calendar {

  datatype Date = Date(year: int, month: nat, day: nat)

  /** The years the date library represents, all of them whole. */
  datatype Range = Range(firstYear: int, lastYear: int)

  const MICROS_PER_DAY := 86_400_000_000
  const EPOCH := Date(1970, 1, 1)

  predicate IsLeap(year: int) {
    year % 4 == 0 && (year % 100 != 0 || year % 400 == 0)
  }

  function DaysIn(year: int, month: nat): (n: nat)
    ensures 28 <= n <= 31
  {
    if month == 2 then (if IsLeap(year) then 29 else 28)
    else if month in {4, 6, 9, 11} then 30
    else 31
  }

  predicate Valid(d: Date) {
    1 <= d.month <= 12 && 1 <= d.day <= DaysIn(d.year, d.month)
  }

  /** `from_ymd_opt` accepts the valid dates of its range. */
  predicate InRange(d: Date, range: Range) {
    Valid(d) && range.firstYear <= d.year <= range.lastYear
  }

  function Succ(d: Date): Date {
    if d.day < DaysIn(d.year, d.month) then d.(day := d.day + 1)
    else if d.month < 12 then Date(d.year, d.month + 1, 1)
    else Date(d.year + 1, 1, 1)
  }

  function Pred(d: Date): Date {
    if d.day > 1 then d.(day := d.day - 1)
    else if d.month > 1 then Date(d.year, d.month - 1, DaysIn(d.year, d.month - 1))
    else Date(d.year - 1, 12, 31)
  }

  /** The date `n` days after 1970-01-01. */
  function DateOf(n: int): (d: Date)
    ensures Valid(d)
    decreases if n < 0 then -n else n
  {
    if n == 0 then EPOCH
    else if n > 0 then Succ(DateOf(n - 1))
    else Pred(DateOf(n + 1))
  }

  predicate Before(a: Date, b: Date) {
    a.year < b.year || (a.year == b.year && (a.month < b.month || (a.month == b.month && a.day < b.day)))
  }

  predicate NotAfter(a: Date, b: Date) {
    a == b || Before(a, b)
  }

  lemma SuccPred(d: Date)
    requires Valid(d)
    ensures Valid(Succ(d)) && Valid(Pred(d)) && Pred(Succ(d)) == d && Succ(Pred(d)) == d
    ensures Before(d, Succ(d)) && Before(Pred(d), d)
  {
  }

  /** Going one day on is `succ`, before the epoch too. */
  lemma NextDay(n: int)
    ensures DateOf(n + 1) == Succ(DateOf(n))
  {
    SuccPred(DateOf(n));
    if n < 0 {
      SuccPred(DateOf(n + 1));
      assert DateOf(n) == Pred(DateOf(n + 1));
    }
  }

  /** Dates are ordered as their day numbers are: no two days share a date. */
  lemma {:induction false} DatesAscend(m: int, n: int)
    requires m < n
    ensures Before(DateOf(m), DateOf(n))
    decreases n - m
  {
    hide DateOf;
    NextDay(n - 1);
    SuccPred(DateOf(n - 1));
    if m < n - 1 {
      DatesAscend(m, n - 1);
    }
  }

  lemma BeforeIff(m: int, n: int)
    ensures Before(DateOf(m), DateOf(n)) <==> m < n
    ensures DateOf(m) == DateOf(n) <==> m == n
    ensures NotAfter(DateOf(m), DateOf(n)) <==> m <= n
  {
    hide DateOf;
    if m < n {
      DatesAscend(m, n);
    } else if n < m {
      DatesAscend(n, m);
    }
  }

  /** A run of days whose ends are in range is in range. */
  lemma RangeIsConvex(m: int, k: int, n: int, range: Range)
    requires m <= k <= n && InRange(DateOf(m), range) && InRange(DateOf(n), range)
    ensures InRange(DateOf(k), range)
  {
    BeforeIff(m, k);
    BeforeIff(k, n);
    hide DateOf;
  }

  // ------------------------------------------------- counting days directly

  /** Leap years before `year`, counted from year 1. */
  function LeapsBefore(year: int): int {
    (year - 1) / 4 - (year - 1) / 100 + (year - 1) / 400
  }

  function DaysBeforeMonth(year: int, month: nat): nat
    requires 1 <= month <= 12
  {
    if month == 1 then 0 else DaysBeforeMonth(year, month - 1) + DaysIn(year, month - 1)
  }

  /** The day number of a date by arithmetic, as an independent reference. */
  function DayNumber(d: Date): int
    requires Valid(d)
  {
    365 * (d.year - 1970) + LeapsBefore(d.year) - LeapsBefore(1970) + DaysBeforeMonth(d.year, d.month) + d.day - 1
  }

  lemma Quarter(year: int)
    ensures year / 4 == (year - 1) / 4 + if year % 4 == 0 then 1 else 0
  {
  }

  lemma Century(year: int)
    ensures year / 100 == (year - 1) / 100 + if year % 100 == 0 then 1 else 0
    ensures year % 100 == 0 ==> year % 4 == 0
  {
  }

  lemma FourCenturies(year: int)
    ensures year / 400 == (year - 1) / 400 + if year % 400 == 0 then 1 else 0
    ensures year % 400 == 0 ==> year % 100 == 0
  {
  }

  lemma LeapStep(year: int)
    ensures LeapsBefore(year + 1) == LeapsBefore(year) + if IsLeap(year) then 1 else 0
  {
    Quarter(year);
    Century(year);
    FourCenturies(year);
  }

  lemma YearLength(year: int)
    ensures DaysBeforeMonth(year, 12) + 31 == 365 + if IsLeap(year) then 1 else 0
  {
    assert DaysBeforeMonth(year, 2) == 31;
    assert DaysBeforeMonth(year, 3) == 31 + DaysIn(year, 2);
    assert DaysBeforeMonth(year, 4) == 62 + DaysIn(year, 2);
    assert DaysBeforeMonth(year, 6) == 123 + DaysIn(year, 2);
    assert DaysBeforeMonth(year, 8) == 184 + DaysIn(year, 2);
    assert DaysBeforeMonth(year, 10) == 245 + DaysIn(year, 2);
  }

  lemma SuccIsNextNumber(d: Date)
    requires Valid(d)
    ensures Valid(Succ(d)) && DayNumber(Succ(d)) == DayNumber(d) + 1
  {
    if d.day == DaysIn(d.year, d.month) && d.month == 12 {
      YearLength(d.year);
      LeapStep(d.year);
    }
  }

  /** The date of day `n` has day number `n`. */
  lemma {:induction false} DateOfIsRight(n: int)
    ensures DayNumber(DateOf(n)) == n
    decreases if n < 0 then -n else n
  {
    if n > 0 {
      DateOfIsRight(n - 1);
      SuccIsNextNumber(DateOf(n - 1));
    } else if n < 0 {
      DateOfIsRight(n + 1);
      SuccPred(DateOf(n + 1));
      SuccIsNextNumber(DateOf(n));
    }
  }

  /** The UTC day of a timestamp: `div_euclid` rounds towards the past. */
  function DayOf(micros: int): int {
    micros / MICROS_PER_DAY
  }

  lemma DayOfGrows(a: int, b: int)
    requires a <= b
    ensures DayOf(a) <= DayOf(b)
  {
  }

  /** `micros_to_date`: a timestamp outside the library's range falls on `today`. */
  function MicrosToDate(micros: int, range: Range, today: Date): Date {
    if InRange(DateOf(DayOf(micros)), range) then DateOf(DayOf(micros)) else today
  }

  // --------------------------------------------- from dates back to numbers

  /** New Year's Days are numbered in the order of their years. */
  lemma {:induction false} YearsAscend(a: int, b: int)
    requires a < b
    ensures DayNumber(Date(a, 12, 31)) < DayNumber(Date(b, 1, 1))
    decreases b - a
  {
    YearLength(a);
    LeapStep(a);
    if a + 1 < b {
      YearsAscend(a + 1, b);
      YearLength(a + 1);
      LeapStep(a + 1);
      MonthsAscend(a + 1, 1, 12);
    }
  }

  lemma {:induction false} MonthsAscend(year: int, a: nat, b: nat)
    requires 1 <= a < b <= 12
    ensures DaysBeforeMonth(year, a) + DaysIn(year, a) <= DaysBeforeMonth(year, b)
    decreases b - a
  {
    if a + 1 < b {
      MonthsAscend(year, a, b - 1);
    }
  }

  lemma WithinYear(d: Date)
    requires Valid(d)
    ensures DayNumber(Date(d.year, 1, 1)) <= DayNumber(d) <= DayNumber(Date(d.year, 12, 31))
  {
    if d.month > 1 {
      MonthsAscend(d.year, 1, d.month);
    }
    if d.month < 12 {
      MonthsAscend(d.year, d.month, 12);
    }
  }

  /** Later dates have greater numbers. */
  lemma NumbersAscend(a: Date, b: Date)
    requires Valid(a) && Valid(b) && Before(a, b)
    ensures DayNumber(a) < DayNumber(b)
  {
    if a.year < b.year {
      WithinYear(a);
      WithinYear(b);
      YearsAscend(a.year, b.year);
    } else if a.month < b.month {
      MonthsAscend(a.year, a.month, b.month);
    }
  }

  /** Every date is the date of its number. */
  lemma NumberIsRight(d: Date)
    requires Valid(d)
    ensures DateOf(DayNumber(d)) == d
  {
    var e := DateOf(DayNumber(d));
    DateOfIsRight(DayNumber(d));
    hide DateOf, DayNumber;
    if Before(e, d) {
      NumbersAscend(e, d);
    } else if Before(d, e) {
      NumbersAscend(d, e);
    }
  }

  /** January to December. */
  lemma MonthLengths(year: int)
    ensures forall month | month in {1, 3, 5, 7, 8, 10, 12} :: DaysIn(year, month) == 31
    ensures forall month | month in {4, 6, 9, 11} :: DaysIn(year, month) == 30
    ensures DaysIn(year, 2) == if year % 400 == 0 || (year % 4 == 0 && year % 100 != 0) then 29 else 28
  {
    LeapYears(year);
    hide IsLeap;
  }

  lemma LeapYears(year: int)
    ensures IsLeap(year) <==> year % 400 == 0 || (year % 4 == 0 && year % 100 != 0)
  {
    if year % 400 == 0 {
      assert year == 400 * (year / 400);
    }
  }

  /** A few days with their numbers. */
  lemma KnownDays()
    ensures DayNumber(Date(1970, 1, 1)) == 0 && DayNumber(Date(2000, 2, 29)) == 11_016
    ensures DayNumber(Date(1900, 3, 1)) == -25_508
  {
    assert DaysBeforeMonth(2000, 2) == 31 && DaysBeforeMonth(1900, 3) == 59;
  }

  /** The time `us` microseconds into the day `d`, by the independent day number. */
  function Moment(d: Date, us: int): int
    requires Valid(d)
  {
    DayNumber(d) * 86_400_000_000 + us
  }

  /** Every microsecond of a day, from its midnight on, is of that day, before 1970 too. */
  lemma MomentIsOfItsDay(d: Date, us: int)
    requires Valid(d) && 0 <= us < 86_400_000_000
    ensures DayOf(Moment(d, us)) == DayNumber(d) && DateOf(DayOf(Moment(d, us))) == d
  {
    NumberIsRight(d);
    hide DateOf, DayNumber;
    DayAndRest(DayNumber(d), us);
  }

  lemma DayAndRest(day: int, us: int)
    requires 0 <= us < 86_400_000_000
    ensures DayOf(day * 86_400_000_000 + us) == day
  {
  }

  /** `micros_to_date` gives each moment of a date the library represents that date. */
  lemma DateOfMoment(d: Date, us: int, range: Range, today: Date)
    requires InRange(d, range) && 0 <= us < 86_400_000_000
    ensures MicrosToDate(DayNumber(d) * 86_400_000_000 + us, range, today) == d
  {
    MomentIsOfItsDay(d, us);
    hide DateOf, DayNumber, InRange;
  }

  /** Every time is a moment of just one day. */
  lemma SomeMoment(micros: int) returns (d: Date, us: int)
    ensures Valid(d) && 0 <= us < 86_400_000_000 && micros == DayNumber(d) * 86_400_000_000 + us
    ensures d == DateOf(DayOf(micros))
  {
    var day := micros / 86_400_000_000;
    d, us := DateOf(day), micros % 86_400_000_000;
    DateOfIsRight(day);
    DayAndRest(day, us);
    hide DateOf, DayNumber;
  }
}
