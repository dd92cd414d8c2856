/** Python's naive `datetime` as the scripts use it: a date of the proleptic
    Gregorian calendar with a time of day to the microsecond, in the years
    MINYEAR = 1 to MAXYEAR = 9999. A datetime is placed on a time line by
    `Instant`, the number of microseconds since 0001-01-01 00:00:00; comparing
    two datetimes is comparing their instants, and subtracting a timedelta is
    subtracting on this line. */
module Calendar {

  const MIN_YEAR: int := 1
  const MAX_YEAR: int := 9999
  const MICROS_PER_DAY: int := 86_400_000_000

  datatype DateTimeFields = DateTimeFields(
    year: int, month: int, day: int,
    hour: int, minute: int, second: int, microsecond: int)

  predicate IsLeapYear(y: int) {
    y % 4 == 0 && (y % 100 != 0 || y % 400 == 0)
  }

  function DaysInYear(y: int): int {
    if IsLeapYear(y) then 366 else 365
  }

  function DaysInMonth(y: int, m: int): (n: int)
    requires 1 <= m <= 12
    ensures 28 <= n <= 31
  {
    if m == 2 then (if IsLeapYear(y) then 29 else 28)
    else if m == 4 || m == 6 || m == 9 || m == 11 then 30
    else 31
  }

  /** The field ranges a Python datetime enforces on construction and replace(). */
  predicate WellFormed(d: DateTimeFields) {
    && MIN_YEAR <= d.year <= MAX_YEAR
    && 1 <= d.month <= 12
    && 1 <= d.day <= DaysInMonth(d.year, d.month)
    && 0 <= d.hour < 24 && 0 <= d.minute < 60 && 0 <= d.second < 60
    && 0 <= d.microsecond < 1_000_000
  }

  type DateTime = d: DateTimeFields | WellFormed(d) witness DateTimeFields(1, 1, 1, 0, 0, 0, 0)

  /** Days in the years before year `y`, as CPython's `_days_before_year`. */
  function DaysBeforeYear(y: int): int
    requires y >= 1
  {
    var p := y - 1;
    p * 365 + p / 4 - p / 100 + p / 400
  }

  /** Days in the months of year `y` before month `m`, as CPython's `_days_before_month`. */
  function DaysBeforeMonth(y: int, m: int): int
    requires 1 <= m <= 12
  {
    var common := [0, 31, 59, 90, 120, 151, 181, 212, 243, 273, 304, 334][m - 1];
    if m > 2 && IsLeapYear(y) then common + 1 else common
  }

  /** The instant of midnight on the first day of month `m` of year `y`. */
  function MonthStart(y: int, m: int): int
    requires y >= 1 && 1 <= m <= 12
  {
    (DaysBeforeYear(y) + DaysBeforeMonth(y, m)) * MICROS_PER_DAY
  }

  /** Microseconds since 0001-01-01 00:00:00 (the datetime's position on the time line). */
  function Instant(d: DateTime): int {
    MonthStart(d.year, d.month)
      + (d.day - 1) * MICROS_PER_DAY
      + ((d.hour * 60 + d.minute) * 60 + d.second) * 1_000_000
      + d.microsecond
  }

  /** The calendar month after (y, m), rolling December over into January of y + 1. */
  function NextMonth(y: int, m: int): (r: (int, int))
    requires 1 <= m <= 12
    ensures 1 <= r.1 <= 12 && 12 * r.0 + r.1 == 12 * y + m + 1
  {
    if m == 12 then (y + 1, 1) else (y, m + 1)
  }

  /** Counting one more year adds one multiple of k exactly when it is one
      (for the three divisors of the Gregorian leap-year rule). */
  lemma DivStep(p: int, k: int)
    requires p >= 0 && (k == 4 || k == 100 || k == 400)
    ensures (p + 1) / k == p / k + (if (p + 1) % k == 0 then 1 else 0)
  {
    if k == 4 {
      assert (p + 1) / 4 == p / 4 + (if (p + 1) % 4 == 0 then 1 else 0);
    } else if k == 100 {
      assert (p + 1) / 100 == p / 100 + (if (p + 1) % 100 == 0 then 1 else 0);
    } else {
      assert (p + 1) / 400 == p / 400 + (if (p + 1) % 400 == 0 then 1 else 0);
    }
  }

  lemma {:induction false} DaysBeforeYearStep(y: int)
    requires y >= 1
    ensures DaysBeforeYear(y + 1) == DaysBeforeYear(y) + DaysInYear(y)
  {
    var p := y - 1;
    DivStep(p, 4);
    DivStep(p, 100);
    DivStep(p, 400);
    NestedDivisors(y);
  }

  /** A multiple of 400 is one of 100, and a multiple of 100 is one of 4. */
  lemma NestedDivisors(y: int)
    ensures y % 400 == 0 ==> y % 100 == 0
    ensures y % 100 == 0 ==> y % 4 == 0
  {
    if y % 400 == 0 {
      assert y / 100 == 4 * (y / 400);
    }
    if y % 100 == 0 {
      assert y / 4 == 25 * (y / 100);
    }
  }

  /** The instants of month (y, m) run from its first midnight for exactly as many
      days as the month has, up to the first midnight of the next month. */
  lemma MonthStartStep(y: int, m: int)
    requires y >= 1 && 1 <= m <= 12
    ensures MonthStart(NextMonth(y, m).0, NextMonth(y, m).1)
         == MonthStart(y, m) + DaysInMonth(y, m) * MICROS_PER_DAY
  {
    if m == 12 {
      DaysBeforeYearStep(y);
    }
  }

  /** Month starts increase with the month: every month that comes strictly before
      (y2, m2) ends no later than (y2, m2) begins. */
  lemma {:induction false} MonthStartMonotone(y1: int, m1: int, y2: int, m2: int)
    requires y1 >= 1 && 1 <= m1 <= 12 && y2 >= 1 && 1 <= m2 <= 12
    requires 12 * y1 + m1 < 12 * y2 + m2
    ensures MonthStart(NextMonth(y1, m1).0, NextMonth(y1, m1).1) <= MonthStart(y2, m2)
    decreases 12 * y2 + m2
  {
    var (ny, nm) := NextMonth(y1, m1);
    if (ny, nm) != (y2, m2) {
      var (py, pm) := if m2 == 1 then (y2 - 1, 12) else (y2, m2 - 1);
      MonthStartMonotone(y1, m1, py, pm);
      MonthStartStep(py, pm);
    }
  }

  /** A datetime lies between the first midnight of its own month and the first
      midnight of the following month. */
  lemma InstantWithinItsMonth(d: DateTime)
    ensures MonthStart(d.year, d.month) <= Instant(d)
    ensures Instant(d) < MonthStart(NextMonth(d.year, d.month).0, NextMonth(d.year, d.month).1)
  {
    MonthStartStep(d.year, d.month);
  }

  /** The instants from the first midnight of month (y, m) up to, but excluding, the
      first midnight of the next month are exactly the datetimes of month (y, m). */
  lemma InMonthIff(d: DateTime, y: int, m: int)
    requires y >= 1 && 1 <= m <= 12
    ensures MonthStart(y, m) <= Instant(d) < MonthStart(NextMonth(y, m).0, NextMonth(y, m).1)
        <==> d.year == y && d.month == m
  {
    InstantWithinItsMonth(d);
    var t := Instant(d);
    var own := NextMonth(d.year, d.month);
    var next := NextMonth(y, m);
    if 12 * d.year + d.month < 12 * y + m {
      MonthStartMonotone(d.year, d.month, y, m);
      assert t < MonthStart(own.0, own.1) <= MonthStart(y, m);
    } else if 12 * y + m < 12 * d.year + d.month {
      MonthStartMonotone(y, m, d.year, d.month);
      assert MonthStart(next.0, next.1) <= MonthStart(d.year, d.month) <= t;
    } else {
      assert d.year == y && d.month == m;
    }
  }

  /** The character of a decimal digit. */
  function DigitChar(n: int): (c: char)
    requires 0 <= n <= 9
    ensures '0' <= c <= '9' && c as int - '0' as int == n
  {
    ('0' as int + n) as char
  }

  /** `d.strftime("%Y-%m")`: the year on four digits, a dash, the month on two. */
  function YearMonthKey(d: DateTime): (key: string)
    ensures |key| == 7 && key[4] == '-'
    ensures forall i | 0 <= i < 7 && i != 4 :: '0' <= key[i] <= '9'
  {
    var y := d.year;
    [ DigitChar(y / 10 / 10 / 10), DigitChar(y / 10 / 10 % 10),
      DigitChar(y / 10 % 10), DigitChar(y % 10),
      '-', DigitChar(d.month / 10), DigitChar(d.month % 10) ]
  }

  /** Reads the year and the month back out of a "%Y-%m" key. */
  function DecodeYearMonthKey(key: string): (r: (int, int))
    requires |key| == 7
  {
    var v := (i: int) requires 0 <= i < 7 => key[i] as int - '0' as int;
    (1000 * v(0) + 100 * v(1) + 10 * v(2) + v(3), 10 * v(5) + v(6))
  }

  /** The key can be read back: it loses neither the year nor the month. */
  lemma DecodeYearMonthKeyInverse(d: DateTime)
    ensures DecodeYearMonthKey(YearMonthKey(d)) == (d.year, d.month)
  {
    var y := d.year;
    assert y == 10 * (y / 10) + y % 10;
    assert y / 10 == 10 * (y / 10 / 10) + y / 10 % 10;
    assert y / 10 / 10 == 10 * (y / 10 / 10 / 10) + y / 10 / 10 % 10;
  }

  /** Two datetimes get the same "%Y-%m" key exactly when they fall in the same
      calendar month, so a partition chosen by key holds one month and only one. */
  lemma YearMonthKeyIdentifiesMonth(a: DateTime, b: DateTime)
    ensures YearMonthKey(a) == YearMonthKey(b) <==> a.year == b.year && a.month == b.month
  {
    DecodeYearMonthKeyInverse(a);
    DecodeYearMonthKeyInverse(b);
  }
}
