/** The time side of the income engine (src/main/ipc/income.ts): the
    one-step advance of a source's next payment date, the "due" test of the
    payment sweep, and the clock that supplies "now". Instants are
    milliseconds on one time line; the calendar month step of `date-fns` is
    not visible here and is supplied by the caller. */
module Schedule {
  import opened Wrappers
  import opened PayFrequency

  /** A point on the time line, in milliseconds. */
  type Instant = int

  const MillisPerDay: int := 86400000

  /** `addMonths(date, n)`: the calendar step of `date-fns`, passed in.
      `addYears(date, n)` is `addMonths(date, 12 * n)` there, and is
      modelled that way. */
  type MonthAdder = (Instant, int) -> Instant

  /** A month step that always moves a date strictly forward. */
  ghost predicate MovesForward(addMonths: MonthAdder) {
    forall t: Instant, n: int | n > 0 :: addMonths(t, n) > t
  }

  /** "Now" as the renderer and the main process read it: the instant and
      its local calendar year and 0-based month (`getFullYear`,
      `getMonth`). */
  type MonthIndex = m: int | 0 <= m < 12

  datatype Clock = Clock(now: Instant, year: nat, monthIndex: MonthIndex)

  /** The date an advance starts from: the stored next payment date, or now
      when none is stored. */
  function StartOf(next: Option<Instant>, now: Instant): Instant {
    next.GetOr(now)
  }

  /** `calculateNextPaymentDate`: one step of the pay frequency from the
      start date; any other frequency returns the start unchanged. */
  function NextPaymentDate(next: Option<Instant>, now: Instant, frequency: Option<Frequency>, addMonths: MonthAdder): (r: Instant)
    ensures !Scheduled(frequency) ==> r == StartOf(next, now)
    ensures Scheduled(frequency) && MovesForward(addMonths) ==> r > StartOf(next, now)
  {
    var start := StartOf(next, now);
    match frequency
    case Some(Weekly) => start + 7 * MillisPerDay
    case Some(Biweekly) => start + 14 * MillisPerDay
    case Some(Semimonthly) => start + 15 * MillisPerDay
    case Some(Monthly) => addMonths(start, 1)
    case Some(Quarterly) => addMonths(start, 3)
    case Some(Annually) => addMonths(start, 12)
    case _ => start
  }

  /** How far one payment moves the date. */
  datatype Step = Days(days: nat) | Months(months: nat) | Stay

  /** The step of each frequency, read off the frequency tables' own
      cadence: a week, two weeks, half a month, a month, a quarter, a year. */
  function StepOf(frequency: Option<Frequency>): (s: Step)
    ensures s == Stay <==> !Scheduled(frequency)
  {
    match frequency
    case Some(Weekly) => Days(7)
    case Some(Biweekly) => Days(14)
    case Some(Semimonthly) => Days(15)
    case Some(Monthly) => Months(1)
    case Some(Quarterly) => Months(3)
    case Some(Annually) => Months(12)
    case _ => Stay
  }

  function ApplyStep(step: Step, start: Instant, addMonths: MonthAdder): Instant {
    match step
    case Days(d) => start + d * MillisPerDay
    case Months(m) => addMonths(start, m)
    case Stay => start
  }

  /** The advance takes exactly the frequency's step from the start date. */
  lemma AdvanceTakesStep(next: Option<Instant>, now: Instant, frequency: Option<Frequency>, addMonths: MonthAdder)
    ensures NextPaymentDate(next, now, frequency, addMonths)
            == ApplyStep(StepOf(frequency), StartOf(next, now), addMonths)
  {
  }

  /** The date steps agree with the paychecks-per-year table: month steps
      times paychecks per year make exactly twelve months, and day steps
      times paychecks per year fall between 360 and 364 days. */
  lemma StepMatchesYearTable(frequency: Option<Frequency>)
    requires Scheduled(frequency)
    ensures StepOf(frequency).Months? ==> StepOf(frequency).months as real * PaychecksPerYear(frequency) == 12.0
    ensures StepOf(frequency).Days? ==> 360.0 <= StepOf(frequency).days as real * PaychecksPerYear(frequency) <= 364.0
  {
  }

  /** A stored next payment date makes the advance independent of now. */
  lemma AdvanceIgnoresNowWhenSet(next: Instant, now1: Instant, now2: Instant, frequency: Option<Frequency>, addMonths: MonthAdder)
    ensures NextPaymentDate(Some(next), now1, frequency, addMonths)
            == NextPaymentDate(Some(next), now2, frequency, addMonths)
  {
  }

  /** The day-based frequencies never consult the calendar. */
  lemma DayStepsIgnoreCalendar(next: Option<Instant>, now: Instant, frequency: Option<Frequency>, am1: MonthAdder, am2: MonthAdder)
    requires StepOf(frequency).Days?
    ensures NextPaymentDate(next, now, frequency, am1) == NextPaymentDate(next, now, frequency, am2)
    ensures NextPaymentDate(next, now, frequency, am1) == StartOf(next, now) + StepOf(frequency).days * MillisPerDay
  {
  }

  /** `next_payment_date IS NOT NULL AND next_payment_date <= now`, with
      the ISO text order read as the order of instants. */
  predicate IsDue(next: Option<Instant>, now: Instant) {
    next.Some? && next.value <= now
  }

  /** A due source whose frequency is not scheduled keeps its date, so it
      is still due afterwards. */
  lemma UnscheduledStaysDue(next: Option<Instant>, now: Instant, frequency: Option<Frequency>, addMonths: MonthAdder)
    requires IsDue(next, now) && !Scheduled(frequency)
    ensures IsDue(Some(NextPaymentDate(next, now, frequency, addMonths)), now)
  {
  }

  /** One advance is a single step: a weekly source more than a week behind
      is still due after it, so a sweep never catches up more than one
      payment. */
  lemma OneStepCanStayDue(next: Instant, now: Instant, addMonths: MonthAdder)
    requires next + 7 * MillisPerDay <= now
    ensures IsDue(Some(NextPaymentDate(Some(next), now, Some(Weekly), addMonths)), now)
  {
  }
}
