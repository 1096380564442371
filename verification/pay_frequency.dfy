/** The frequency tables of the income engine (src/main/ipc/income.ts):
    paychecks per year and per month for each pay frequency. Every switch
    over the stored frequency in the source lists the same six names and
    sends everything else (`none`, any other text, or no value at all) to its
    default branch. */
module PayFrequency {
  import opened Wrappers

  /** The stored frequency text, classified: the six scheduled names, the
      form's `none`, and any other text. */
  datatype Frequency = Weekly | Biweekly | Semimonthly | Monthly | Quarterly | Annually | NoFrequency | Unlisted

  function FrequencyOf(text: string): (f: Frequency)
    ensures f == Unlisted <==> text !in {"weekly", "biweekly", "semimonthly", "monthly", "quarterly", "annually", "none"}
  {
    if text == "weekly" then Weekly
    else if text == "biweekly" then Biweekly
    else if text == "semimonthly" then Semimonthly
    else if text == "monthly" then Monthly
    else if text == "quarterly" then Quarterly
    else if text == "annually" then Annually
    else if text == "none" then NoFrequency
    else Unlisted
  }

  function NameOf(f: Frequency): string
    requires f != Unlisted
  {
    match f
    case Weekly => "weekly"
    case Biweekly => "biweekly"
    case Semimonthly => "semimonthly"
    case Monthly => "monthly"
    case Quarterly => "quarterly"
    case Annually => "annually"
    case NoFrequency => "none"
  }

  /** Classification inverts naming. */
  lemma FrequencyOfNameOf(f: Frequency)
    requires f != Unlisted
    ensures FrequencyOf(NameOf(f)) == f
  {
  }

  /** Whether a stored frequency selects a non-default `case`. */
  predicate Scheduled(frequency: Option<Frequency>) {
    frequency.Some? && frequency.value !in {NoFrequency, Unlisted}
  }

  /** `getPaychecksPerYear`. */
  function PaychecksPerYear(frequency: Option<Frequency>): (r: real)
    ensures r > 0.0
    ensures r == r.Floor as real && r <= 52.0
    ensures !Scheduled(frequency) ==> r == 12.0
  {
    match frequency
    case Some(Weekly) => 52.0
    case Some(Biweekly) => 26.0
    case Some(Semimonthly) => 24.0
    case Some(Monthly) => 12.0
    case Some(Quarterly) => 4.0
    case Some(Annually) => 1.0
    case _ => 12.0
  }

  /** `getPaychecksPerMonth`. */
  function PaychecksPerMonth(frequency: Option<Frequency>): (r: real)
    ensures r > 0.0
    ensures !Scheduled(frequency) ==> r == 1.0
  {
    match frequency
    case Some(Weekly) => 4.33
    case Some(Biweekly) => 2.17
    case Some(Semimonthly) => 2.0
    case Some(Monthly) => 1.0
    case Some(Quarterly) => 0.33
    case Some(Annually) => 0.083
    case _ => 1.0
  }

  /** The two tables are not derived from each other: the per-month figure is
      the per-year figure over twelve only to within one percent (exactly for
      semimonthly and monthly). */
  lemma MonthTableApproximatesYearTable(frequency: Option<Frequency>)
    ensures var y := PaychecksPerYear(frequency);
            var m := PaychecksPerMonth(frequency);
            -y / 100.0 <= 12.0 * m - y <= y / 100.0
    ensures frequency in {Some(Weekly), Some(Biweekly), Some(Quarterly), Some(Annually)} <==>
              12.0 * PaychecksPerMonth(frequency) != PaychecksPerYear(frequency)
  {
  }

  /** The exact entries of both tables, by stored name. */
  lemma PaycheckTables()
    ensures PaychecksPerYear(Some(FrequencyOf("weekly"))) == 52.0 && PaychecksPerMonth(Some(FrequencyOf("weekly"))) == 4.33
    ensures PaychecksPerYear(Some(FrequencyOf("biweekly"))) == 26.0 && PaychecksPerMonth(Some(FrequencyOf("biweekly"))) == 2.17
    ensures PaychecksPerYear(Some(FrequencyOf("semimonthly"))) == 24.0 && PaychecksPerMonth(Some(FrequencyOf("semimonthly"))) == 2.0
    ensures PaychecksPerYear(Some(FrequencyOf("monthly"))) == 12.0 && PaychecksPerMonth(Some(FrequencyOf("monthly"))) == 1.0
    ensures PaychecksPerYear(Some(FrequencyOf("quarterly"))) == 4.0 && PaychecksPerMonth(Some(FrequencyOf("quarterly"))) == 0.33
    ensures PaychecksPerYear(Some(FrequencyOf("annually"))) == 1.0 && PaychecksPerMonth(Some(FrequencyOf("annually"))) == 0.083
    ensures PaychecksPerYear(Some(FrequencyOf("none"))) == 12.0 && PaychecksPerMonth(Some(FrequencyOf("none"))) == 1.0
    ensures PaychecksPerYear(Some(FrequencyOf("fortnightly"))) == 12.0 && PaychecksPerMonth(Some(FrequencyOf("fortnightly"))) == 1.0
    ensures PaychecksPerYear(None) == 12.0 && PaychecksPerMonth(None) == 1.0
  {
  }
}
