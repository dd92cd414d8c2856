/** The date ranges the query scripts compute before timing a query: the calendar
    month of a reference payment (Q5 for the relational and the document store)
    and the n-day look-back that ends at a reference instant (Q6 everywhere, Q5
    for the wide-column store). */
module QueryWindows {
  import opened Base
  import opened Calendar

  /** An inclusive range of instants: SQL `BETWEEN start AND end`, Mongo
      `{"$gte": start, "$lte": end}`, CQL `BETWEEN`. */
  datatype Window = Window(start: int, end: int) {
    predicate Contains(t: int) {
      start <= t <= end
    }
  }

  /** `ref.replace(day=1, hour=0, minute=0, second=0, microsecond=0)`. */
  function FirstOfMonth(ref: DateTime): DateTime {
    ref.(day := 1, hour := 0, minute := 0, second := 0, microsecond := 0)
  }

  /** The replace() call that gives midnight on the first day of the next month;
      in December it moves to January of year + 1, which raises ValueError past
      MAXYEAR. */
  function FirstOfNextMonth(ref: DateTime): Result<DateTime> {
    if ref.month == 12 then
      if ref.year + 1 > MAX_YEAR then Failure(ValueError)
      else Success(ref.(year := ref.year + 1, month := 1, day := 1,
                        hour := 0, minute := 0, second := 0, microsecond := 0))
    else
      Success(ref.(month := ref.month + 1, day := 1,
                   hour := 0, minute := 0, second := 0, microsecond := 0))
  }

  /** The Q5 window: from the first instant of the reference date's month to
      `timedelta(microseconds=1)` before the first instant of the next month. */
  function MonthWindow(ref: DateTime): (r: Result<Window>)
    ensures r.Failure? <==> ref.year == MAX_YEAR && ref.month == 12
    ensures r.Success? ==> r.value.Contains(Instant(ref))
  {
    InstantWithinItsMonth(ref);
    match FirstOfNextMonth(ref)
    case Failure(e) => Failure(e)
    case Success(next) => Success(Window(Instant(FirstOfMonth(ref)), Instant(next) - 1))
  }

  /** The month window holds exactly the datetimes of the reference date's
      calendar month: both bounds lie in that month, and nothing of the months
      before or after is inside. */
  lemma MonthWindowIsCalendarMonth(ref: DateTime, d: DateTime)
    requires MonthWindow(ref).Success?
    ensures MonthWindow(ref).value.Contains(Instant(d)) <==> d.year == ref.year && d.month == ref.month
  {
    var w := MonthWindow(ref).value;
    var next := NextMonth(ref.year, ref.month);
    assert w.start == MonthStart(ref.year, ref.month);
    assert w.end + 1 == MonthStart(next.0, next.1);
    InMonthIff(d, ref.year, ref.month);
  }

  /** `end - timedelta(days=days)` to `end`; the subtraction raises OverflowError
      when it would go below 0001-01-01 00:00:00. */
  function LookBack(end: DateTime, days: nat): (r: Result<Window>)
    ensures r.Failure? <==> Instant(end) < days * MICROS_PER_DAY
    ensures r.Success? ==> r.value.end == Instant(end)
    ensures r.Success? ==> r.value.Contains(Instant(end))
    ensures r.Success? ==> forall t :: r.value.Contains(t) <==> Instant(end) - days * MICROS_PER_DAY <= t <= Instant(end)
  {
    var start := Instant(end) - days * MICROS_PER_DAY;
    if start < 0 then Failure(OverflowError) else Success(Window(start, Instant(end)))
  }
}
