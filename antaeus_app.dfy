/** The scheduling state of AntaeusApp: the `year` and `month` globals that
    `billingScheduler` advances by one calendar month per call, and the
    `calendar` instant it sets to the start of that month. Months are
    0-based, as `Calendar.MONTH` is (0 = January, 11 = December). */
module App {

  datatype YearMonth = YearMonth(year: int, month: int)

  /** A calendar instant as `Calendar.set(year, month, day, hour, minute, second)` takes it. */
  datatype Instant = Instant(year: int, month: int, day: int, hour: int, minute: int, second: int)

  /** A month value `Calendar.MONTH` can produce. */
  predicate InCalendar(m: YearMonth) {
    0 <= m.month <= 11
  }

  /** Months elapsed since January of year 0. */
  function AbsMonth(m: YearMonth): int {
    m.year * 12 + m.month
  }

  /** The (year, month) update of one `billingScheduler` call. */
  function NextMonth(m: YearMonth): (r: YearMonth)
    ensures AbsMonth(r) == AbsMonth(m) + 1
    ensures InCalendar(m) ==> InCalendar(r)
    ensures m.month != 11 ==> r.year == m.year
  {
    if m.month == 11 then YearMonth(m.year + 1, 0) else YearMonth(m.year, m.month + 1)
  }

  /** Within the calendar, a month is determined by its absolute index. */
  lemma AbsMonthInjective(a: YearMonth, b: YearMonth)
    requires InCalendar(a) && InCalendar(b)
    requires AbsMonth(a) == AbsMonth(b)
    ensures a == b
  {
  }

  /** NextMonth is the calendar successor: the unique calendar month whose
      index is one more. */
  lemma NextMonthIsSuccessor(m: YearMonth, r: YearMonth)
    requires InCalendar(m) && InCalendar(r)
    ensures r == NextMonth(m) <==> AbsMonth(r) == AbsMonth(m) + 1
  {
    if AbsMonth(r) == AbsMonth(m) + 1 {
      AbsMonthInjective(r, NextMonth(m));
    }
  }

  /** The state after `n` calls of `billingScheduler`. */
  function Advance(m: YearMonth, n: nat): YearMonth
    decreases n
  {
    if n == 0 then m else Advance(NextMonth(m), n - 1)
  }

  /** `n` calls advance the absolute month by exactly `n` and keep the month
      in the calendar. */
  lemma {:induction false} AdvanceMonths(m: YearMonth, n: nat)
    ensures AbsMonth(Advance(m, n)) == AbsMonth(m) + n
    ensures InCalendar(m) ==> InCalendar(Advance(m, n))
    decreases n
  {
    if n > 0 {
      AdvanceMonths(NextMonth(m), n - 1);
    }
  }

  /** An instant whose day, hour, minute and second are ones a calendar can show. */
  predicate ValidInstant(t: Instant) {
    1 <= t.day <= 31 && 0 <= t.hour <= 23 && 0 <= t.minute <= 59 && 0 <= t.second <= 59
  }

  /** `t` is no later than `u` within the same month: (day, hour, minute,
      second) compared in that order. */
  predicate NoLaterInMonth(t: Instant, u: Instant) {
    || t.day < u.day
    || (t.day == u.day && t.hour < u.hour)
    || (t.day == u.day && t.hour == u.hour && t.minute < u.minute)
    || (t.day == u.day && t.hour == u.hour && t.minute == u.minute && t.second <= u.second)
  }

  /** The first instant of the month: a valid instant in month `m` that is no
      later than any other instant of that month. */
  function StartOf(m: YearMonth): (t: Instant)
    ensures ValidInstant(t) && t.year == m.year && t.month == m.month
    ensures forall u :: ValidInstant(u) && u.year == m.year && u.month == m.month ==> NoLaterInMonth(t, u)
  {
    Instant(m.year, m.month, 1, 0, 0, 0)
  }

  /** The process-wide scheduling state: `year`, `month` and `calendar`. */
  class Scheduler {
    var year: int
    var month: int
    var calendar: Instant
    /** Timer calls made so far: `main`'s initial call and one per firing. */
    ghost var calls: nat

    function Current(): YearMonth
      reads this
    {
      YearMonth(year, month)
    }

    /** The month is one `Calendar.MONTH` can hold. */
    ghost predicate Valid()
      reads this
    {
      InCalendar(Current())
    }

    /** The globals as initialised from `Calendar.getInstance()`; the clock
        reading is a parameter, and its month is 0..11 as `Calendar.MONTH`
        always is. */
    constructor (now: Instant)
      requires 0 <= now.month <= 11
      ensures Valid()
      ensures year == now.year && month == now.month && calendar == now
      ensures calls == 0
    {
      year := now.year;
      month := now.month;
      calendar := now;
      calls := 0;
    }

    /** `billingScheduler`: moves to the next month, sets the calendar to its
        first instant and returns that instant, at which the timer task is
        scheduled. */
    method BillingScheduler() returns (at: Instant)
      requires Valid()
      modifies this
      ensures Valid()
      ensures Current() == NextMonth(old(Current()))
      ensures calendar == StartOf(Current()) && at == calendar
      ensures calls == old(calls) + 1
    {
      if month == 11 {
        month := 0;
        year := year + 1;
      } else {
        month := month + 1;
      }
      calendar := Instant(year, month, 1, 0, 0, 0);
      at := calendar;
      calls := calls + 1;
    }

    /** `n` timer firings, each running the payment process (not part of this
        model) and then calling `billingScheduler` again. */
    method Fire(n: nat)
      requires Valid()
      modifies this
      ensures Valid()
      ensures Current() == Advance(old(Current()), n)
      ensures calls == old(calls) + n
      ensures n > 0 ==> calendar == StartOf(Current())
      ensures n == 0 ==> calendar == old(calendar)
      decreases n
    {
      if n > 0 {
        var _ := BillingScheduler();
        Fire(n - 1);
      }
    }

    /** `main` starts the scheduler once; after that and `n` firings the
        state has advanced `n + 1` months and the month is still 0..11. */
    method Start(n: nat)
      requires Valid()
      modifies this
      ensures Valid()
      ensures Current() == Advance(old(Current()), n + 1)
      ensures AbsMonth(Current()) == AbsMonth(old(Current())) + n + 1
      ensures calendar == StartOf(Current())
      ensures calls == old(calls) + n + 1
    {
      ghost var start := Current();
      var _ := BillingScheduler();
      Fire(n);
      AdvanceMonths(start, n + 1);
    }
  }
}
