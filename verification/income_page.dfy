/** The Income page (src/renderer/pages/Income.tsx) and its Adjust Monthly
    Total dialog (src/renderer/components/MonthlyTotalDialog.tsx): the
    current month's total per source, and the manual adjust, which
    overwrites the entry in the page's loaded copy of the totals and writes
    that copy back. */
module IncomePage {
  import opened Wrappers
  import opened Schedule
  import opened MonthlyTotals
  import opened IncomeStore

  /** `getCurrentMonthTotal(source.monthly_totals, source.name)`. */
  function RowTotal(row: IncomeRow, clock: Clock): real {
    CurrentMonthTotal(row.monthlyTotals, clock, row.name)
  }

  /** `incomeSources.find(i => i.id === id)`: the first loaded source with
      that id. */
  function Find(loaded: seq<IncomeRow>, id: nat): (found: Option<IncomeRow>)
    ensures found.Some? ==> found.value in loaded && found.value.id == id
    ensures found.Some? ==> exists k | 0 <= k < |loaded| ::
              loaded[k] == found.value && forall j | 0 <= j < k :: loaded[j].id != id
    ensures found.None? ==> forall i | 0 <= i < |loaded| :: loaded[i].id != id
  {
    if loaded == [] then None
    else if loaded[0].id == id then Some(loaded[0])
    else Find(loaded[1..], id)
  }

  /** The page's `updateMonthlyTotal(amount)`: with a selected source among
      the loaded ones whose totals parse, the current month's entry for its
      name is set to `amount` in the loaded copy, and the copy is written
      back; in every other case nothing is written. */
  function AdjustMonthlyTotal(db: Db, loaded: seq<IncomeRow>, selected: Option<nat>, amount: real, clock: Clock): (r: Db)
    ensures selected.None? ==> r == db
    ensures selected.Some? && Find(loaded, selected.value).None? ==> r == db
  {
    match selected
    case None => db
    case Some(id) =>
      match Find(loaded, id)
      case None => db
      case Some(source) =>
        match source.monthlyTotals
        case None => db
        case Some(totals) => WriteMonthlyTotals(db, id, SetAbsolute(totals, PeriodOf(clock), source.name, amount))
  }

  /** The loaded list shows the stored rows as they are now. */
  predicate Fresh(db: Db, loaded: seq<IncomeRow>) {
    forall i | 0 <= i < |loaded| :: loaded[i].id in db.income && db.income[loaded[i].id] == loaded[i]
  }

  /** After an adjust from a fresh list, the page shows the adjusted amount
      for that source. */
  lemma AdjustIsShown(db: Db, loaded: seq<IncomeRow>, id: nat, amount: real, clock: Clock)
    requires Fresh(db, loaded)
    requires Find(loaded, id).Some? && Find(loaded, id).value.monthlyTotals.Some?
    ensures RowTotal(AdjustMonthlyTotal(db, loaded, Some(id), amount, clock).income[id], clock) == amount
  {
    var source := Find(loaded, id).value;
    var i :| 0 <= i < |loaded| && loaded[i] == source;
  }

  /** An adjust from a fresh list touches only the selected source's entry
      for the current month: every other source, and every other month and
      name of that source, reads as before. */
  lemma AdjustTouchesOneEntry(db: Db, loaded: seq<IncomeRow>, id: nat, amount: real, clock: Clock, q: Period, n: string)
    requires Fresh(db, loaded)
    requires Find(loaded, id).Some? && Find(loaded, id).value.monthlyTotals.Some?
    ensures var source := Find(loaded, id).value;
            var after := AdjustMonthlyTotal(db, loaded, Some(id), amount, clock).income[id];
            (q, n) != (PeriodOf(clock), source.name) ==>
              Get(after.monthlyTotals.value, q, n) == Get(source.monthlyTotals.value, q, n)
    ensures forall other | other in db.income && other != id ::
              AdjustMonthlyTotal(db, loaded, Some(id), amount, clock).income[other] == db.income[other]
  {
    var source := Find(loaded, id).value;
    var i :| 0 <= i < |loaded| && loaded[i] == source;
  }

  /** The adjust writes back the page's copy, not the stored column: a
      booking made in another month after the page loaded is lost. */
  lemma StaleAdjustDropsLaterBooking(totals: Totals, clock: Clock, other: Clock, name: string, paid: real, amount: real)
    requires (other.year, other.monthIndex) != (clock.year, clock.monthIndex)
    requires Get(totals, PeriodOf(other), name).None? && paid != 0.0
    ensures var row := IncomeRow(1, name, IncomeForm.SimpleIncome, None, None, None, None, Some(totals));
            var db := Db(map[1 := row], [], 2);
            var booked := BookPayment(db, 1, paid, other);
            var after := AdjustMonthlyTotal(booked, [row], Some(1), amount, clock);
            && CurrentMonthTotal(booked.income[1].monthlyTotals, other, name) == paid
            && CurrentMonthTotal(after.income[1].monthlyTotals, other, name) == 0.0
  {
    PeriodOfInjective(other, clock);
  }

  /** The adjust dialog's schema: a non-negative amount. */
  predicate ValidAdjustAmount(amount: real) {
    amount >= 0.0
  }

  /** Submitting the dialog: a negative amount is rejected by the schema and
      nothing happens. */
  function SubmitAdjust(db: Db, loaded: seq<IncomeRow>, selected: Option<nat>, amount: real, clock: Clock): (r: Db)
    ensures !ValidAdjustAmount(amount) ==> r == db
    ensures ValidAdjustAmount(amount) ==> r == AdjustMonthlyTotal(db, loaded, selected, amount, clock)
  {
    if ValidAdjustAmount(amount) then AdjustMonthlyTotal(db, loaded, selected, amount, clock) else db
  }

  /** A submitted adjust from a fresh list never makes the shown total
      negative. */
  lemma SubmittedTotalNonNegative(db: Db, loaded: seq<IncomeRow>, id: nat, amount: real, clock: Clock)
    requires Fresh(db, loaded) && id in db.income
    requires CurrentMonthTotal(db.income[id].monthlyTotals, clock, db.income[id].name) >= 0.0
    ensures RowTotal(SubmitAdjust(db, loaded, Some(id), amount, clock).income[id], clock) >= 0.0
  {
    var found := Find(loaded, id);
    if ValidAdjustAmount(amount) && found.Some? && found.value.monthlyTotals.Some? {
      AdjustIsShown(db, loaded, id, amount, clock);
    } else if found.Some? {
      var i :| 0 <= i < |loaded| && loaded[i] == found.value;
    }
  }
}
