/** The income handlers of the main process (src/main/ipc/income.ts) as
    transitions of the stored state: the `income` table as a map from id to
    row, and the `income_deductions` table as a list of rows in insertion
    order. */
module IncomeStore {
  import opened Wrappers
  import opened PayFrequency
  import opened NetPay
  import opened Schedule
  import opened MonthlyTotals
  import opened IncomeForm

  /** A row of the `income` table. `monthlyTotals` is the parsed column;
      `None` stands for text that does not parse. */
  datatype IncomeRow = IncomeRow(
    id: nat,
    name: string,
    kind: IncomeKind,
    frequency: Option<Frequency>,
    amount: Option<real>,
    payDate: Option<Instant>,
    nextPaymentDate: Option<Instant>,
    monthlyTotals: Option<Totals>)

  /** A row of the `income_deductions` table. */
  datatype DeductionRow = DeductionRow(sourceId: nat, item: DeductionItem)

  datatype Db = Db(income: map<nat, IncomeRow>, deductions: seq<DeductionRow>, nextId: nat)

  /** Every row sits under its own id, and ids below `nextId` are the ones
      handed out so far. */
  predicate Valid(db: Db) {
    forall id | id in db.income :: db.income[id].id == id && id < db.nextId
  }

  /** The deduction-table rows whose source id is `id`, in insertion order. */
  function DeductionsOf(db: Db, id: nat): (items: seq<DeductionItem>)
    ensures |items| <= |db.deductions|
  {
    DeductionsIn(db.deductions, id)
  }

  function DeductionsIn(rows: seq<DeductionRow>, id: nat): (items: seq<DeductionItem>)
    ensures |items| <= |rows|
  {
    if rows == [] then []
    else
      var last := |rows| - 1;
      DeductionsIn(rows[..last], id) + (if rows[last].sourceId == id then [rows[last].item] else [])
  }

  lemma {:induction false} DeductionsInAppend(xs: seq<DeductionRow>, ys: seq<DeductionRow>, id: nat)
    ensures DeductionsIn(xs + ys, id) == DeductionsIn(xs, id) + DeductionsIn(ys, id)
    decreases |ys|
  {
    if ys == [] {
      assert xs + ys == xs;
    } else {
      var last := |ys| - 1;
      assert (xs + ys)[..|xs + ys| - 1] == xs + ys[..last];
      assert (xs + ys)[|xs + ys| - 1] == ys[last];
      DeductionsInAppend(xs, ys[..last], id);
    }
  }

  /** The rows inserted for a list of items, all under one source. */
  function RowsFor(id: nat, items: seq<DeductionItem>): (rows: seq<DeductionRow>)
    ensures |rows| == |items|
    ensures forall i | 0 <= i < |items| :: rows[i] == DeductionRow(id, items[i])
  {
    seq(|items|, i requires 0 <= i < |items| => DeductionRow(id, items[i]))
  }

  /** The rows inserted for a source carry exactly its items, and nothing
      for any other source. */
  lemma {:induction false} DeductionsInRowsFor(id: nat, items: seq<DeductionItem>, other: nat)
    ensures DeductionsIn(RowsFor(id, items), id) == items
    ensures other != id ==> DeductionsIn(RowsFor(id, items), other) == []
    decreases |items|
  {
    if items != [] {
      var last := |items| - 1;
      assert RowsFor(id, items)[..last] == RowsFor(id, items[..last]);
      DeductionsInRowsFor(id, items[..last], other);
      assert items == items[..last] + [items[last]];
    }
  }

  /** Records loaded with `SELECT * FROM income` carry no deduction items:
      only the `getAll` query joins them in. */
  const LoadedDeductions: seq<DeductionItem> := []

  /** The amount booked for a loaded record. */
  function RowPayment(row: IncomeRow): real {
    PaymentAmount(row.amount, row.frequency, LoadedDeductions)
  }

  /** Because the loaded record has no items, what is booked is always the
      gross paycheck, whatever deductions are stored for the source. */
  lemma BookedAmountIsGross(row: IncomeRow)
    ensures RowPayment(row) == AmountOrZero(row.amount) / PaychecksPerYear(row.frequency)
  {
  }

  /** `updateMonthlyTotal(id, amount)`: adds `amount` under the current
      month and the row's name. A missing row or a column that does not
      parse ends in the `catch`, and nothing is written. */
  function BookPayment(db: Db, id: nat, amount: real, clock: Clock): (r: Db)
    ensures r.income.Keys == db.income.Keys && r.deductions == db.deductions && r.nextId == db.nextId
    ensures forall other | other in db.income && other != id :: r.income[other] == db.income[other]
    ensures id in db.income ==>
              r.income[id] == db.income[id].(monthlyTotals := BookInto(db.income[id].monthlyTotals, clock, db.income[id].name, amount))
    ensures id !in db.income || db.income[id].monthlyTotals.None? ==> r == db
  {
    if id in db.income && db.income[id].monthlyTotals.Some? then
      var row := db.income[id];
      db.(income := db.income[id := row.(monthlyTotals := BookInto(row.monthlyTotals, clock, row.name, amount))])
    else db
  }

  /** `updateNextPaymentDate`: an `UPDATE … WHERE id = ?`, which touches
      nothing when the id is missing. */
  function SetNextPaymentDate(db: Db, id: nat, date: Instant): (r: Db)
    ensures r.income.Keys == db.income.Keys && r.deductions == db.deductions && r.nextId == db.nextId
    ensures forall other | other in db.income && other != id :: r.income[other] == db.income[other]
    ensures id in db.income ==> r.income[id] == db.income[id].(nextPaymentDate := Some(date))
  {
    if id in db.income then db.(income := db.income[id := db.income[id].(nextPaymentDate := Some(date))])
    else db
  }

  /** `income:updateMonthlyTotals`: stores the given totals in the row. */
  function WriteMonthlyTotals(db: Db, id: nat, totals: Totals): (r: Db)
    ensures r.income.Keys == db.income.Keys && r.deductions == db.deductions && r.nextId == db.nextId
    ensures forall other | other in db.income && other != id :: r.income[other] == db.income[other]
    ensures id in db.income ==> r.income[id] == db.income[id].(monthlyTotals := Some(totals))
  {
    if id in db.income then db.(income := db.income[id := db.income[id].(monthlyTotals := Some(totals))])
    else db
  }

  /** `income:create`. The new row gets the next id, the submitted fields,
      `'{}'` as its totals and `firstPaymentDate` as its next payment date
      (the pay date after the create flow's nudge, computed by the caller);
      its items are appended to the deduction table; then one payment,
      computed from the freshly loaded row, is booked. */
  function CreateIncome(db: Db, data: IncomeFormData, clock: Clock, firstPaymentDate: Instant): (result: (Db, nat))
    requires Valid(db)
    ensures var (r, id) := result;
            && id == db.nextId && id !in db.income && id in r.income
            && Valid(r) && r.nextId == db.nextId + 1
            && r.income.Keys == db.income.Keys + {id}
            && (forall other | other in db.income :: r.income[other] == db.income[other])
            && r.income[id] == IncomeRow(id, data.name, data.kind, data.frequency, data.amount, data.payDate,
                                         Some(firstPaymentDate),
                                         Some(Put(map[], PeriodOf(clock), data.name,
                                                  AmountOrZero(data.amount) / PaychecksPerYear(data.frequency))))
            && Get(r.income[id].monthlyTotals.value, PeriodOf(clock), data.name)
               == Some(AmountOrZero(data.amount) / PaychecksPerYear(data.frequency))
            && r.deductions == db.deductions + RowsFor(id, data.deductions.GetOr([]))
            && DeductionsOf(r, id) == DeductionsOf(db, id) + data.deductions.GetOr([])
            && (forall other | other != id :: DeductionsOf(r, other) == DeductionsOf(db, other))
  {
    var id := db.nextId;
    var row := IncomeRow(id, data.name, data.kind, data.frequency, data.amount, data.payDate, Some(firstPaymentDate), Some(map[]));
    var inserted := Db(db.income[id := row], db.deductions + RowsFor(id, data.deductions.GetOr([])), db.nextId + 1);
    var added := RowsFor(id, data.deductions.GetOr([]));
    DeductionsInAppend(db.deductions, added, id);
    DeductionsInRowsFor(id, data.deductions.GetOr([]), id);
    forall other | other != id
      ensures DeductionsIn(db.deductions + added, other) == DeductionsIn(db.deductions, other)
    {
      DeductionsInAppend(db.deductions, added, other);
      DeductionsInRowsFor(id, data.deductions.GetOr([]), other);
    }
    var loaded := inserted.income[id];
    (BookPayment(inserted, id, RowPayment(loaded), clock), id)
  }

  /** No deduction row points at an id that has not been handed out yet. */
  predicate DeductionsBelowNextId(db: Db) {
    forall i | 0 <= i < |db.deductions| :: db.deductions[i].sourceId < db.nextId
  }

  /** When no deduction row points past the handed-out ids, a new source
      starts with exactly the submitted items. */
  lemma CreateStoresSubmittedItems(db: Db, data: IncomeFormData, clock: Clock, firstPaymentDate: Instant)
    requires Valid(db) && DeductionsBelowNextId(db)
    ensures var (r, id) := CreateIncome(db, data, clock, firstPaymentDate);
            DeductionsOf(r, id) == data.deductions.GetOr([]) && DeductionsBelowNextId(r)
  {
    var (r, id) := CreateIncome(db, data, clock, firstPaymentDate);
    NoRowsNoItems(db.deductions, db.nextId);
    assert DeductionsOf(db, id) == [];
    forall i | 0 <= i < |r.deductions|
      ensures r.deductions[i].sourceId < r.nextId
    {
      if i >= |db.deductions| {
        assert r.deductions[i] == RowsFor(id, data.deductions.GetOr([]))[i - |db.deductions|];
      }
    }
  }

  lemma {:induction false} NoRowsNoItems(rows: seq<DeductionRow>, id: nat)
    requires forall i | 0 <= i < |rows| :: rows[i].sourceId != id
    ensures DeductionsIn(rows, id) == []
  {
    if rows != [] {
      NoRowsNoItems(rows[..|rows| - 1], id);
    }
  }

  /** The deduction rows of every source but one. */
  function WithoutSource(rows: seq<DeductionRow>, id: nat): (kept: seq<DeductionRow>)
    ensures |kept| <= |rows|
    ensures forall i | 0 <= i < |kept| :: kept[i].sourceId != id
  {
    if rows == [] then []
    else
      var last := |rows| - 1;
      WithoutSource(rows[..last], id) + (if rows[last].sourceId == id then [] else [rows[last]])
  }

  /** Dropping one source's rows leaves every other source's items as they
      were. */
  lemma {:induction false} WithoutSourceKeepsOthers(rows: seq<DeductionRow>, id: nat, other: nat)
    requires other != id
    ensures DeductionsIn(WithoutSource(rows, id), other) == DeductionsIn(rows, other)
  {
    if rows != [] {
      var last := |rows| - 1;
      WithoutSourceKeepsOthers(rows[..last], id, other);
      var kept := WithoutSource(rows[..last], id);
      if rows[last].sourceId != id {
        DeductionsInAppend(kept, [rows[last]], other);
        assert DeductionsIn([rows[last]], other) == (if rows[last].sourceId == other then [rows[last].item] else []) by {
          assert [rows[last]][..0] == [];
        }
      } else {
        assert WithoutSource(rows, id) == kept + [];
        assert kept + [] == kept;
        assert DeductionsIn(rows, other) == DeductionsIn(rows[..last], other) + [];
        assert DeductionsIn(rows[..last], other) + [] == DeductionsIn(rows[..last], other);
      }
    }
  }

  /** `income:update`: overwrites the row's fields (next payment date
      included) but never its totals, then replaces the source's deduction
      items wholesale: delete all, insert the submitted ones. */
  function UpdateIncome(db: Db, id: nat, data: IncomeFormData): (r: Db)
    ensures r.income.Keys == db.income.Keys && r.nextId == db.nextId
    ensures forall other | other in db.income && other != id :: r.income[other] == db.income[other]
    ensures id in db.income ==>
              r.income[id] == db.income[id].(name := data.name, kind := data.kind, frequency := data.frequency,
                                             amount := data.amount, payDate := data.payDate,
                                             nextPaymentDate := data.nextPaymentDate)
    ensures DeductionsOf(r, id) == data.deductions.GetOr([])
    ensures forall other | other != id :: DeductionsOf(r, other) == DeductionsOf(db, other)
  {
    var income := if id in db.income then
        db.income[id := db.income[id].(name := data.name, kind := data.kind, frequency := data.frequency,
                                       amount := data.amount, payDate := data.payDate,
                                       nextPaymentDate := data.nextPaymentDate)]
      else db.income;
    var kept := WithoutSource(db.deductions, id);
    var added := RowsFor(id, data.deductions.GetOr([]));
    DeductionsInAppend(kept, added, id);
    NoRowsNoItems(kept, id);
    DeductionsInRowsFor(id, data.deductions.GetOr([]), id);
    forall other | other != id
      ensures DeductionsIn(kept + added, other) == DeductionsIn(db.deductions, other)
    {
      DeductionsInAppend(kept, added, other);
      DeductionsInRowsFor(id, data.deductions.GetOr([]), other);
      WithoutSourceKeepsOthers(db.deductions, id, other);
    }
    Db(income, kept + added, db.nextId)
  }

  /** Submitting the same edit twice leaves what submitting it once left. */
  lemma UpdateIdempotent(db: Db, id: nat, data: IncomeFormData)
    ensures var once := UpdateIncome(db, id, data);
            UpdateIncome(once, id, data).income == once.income
            && (forall s :: DeductionsOf(UpdateIncome(once, id, data), s) == DeductionsOf(once, s))
  {
  }

  /** Renaming a source moves the page's read to an entry of the new name:
      amounts booked under the old name no longer show. */
  lemma RenameStartsNewEntry(db: Db, id: nat, data: IncomeFormData, clock: Clock)
    requires id in db.income && db.income[id].monthlyTotals.Some?
    requires Get(db.income[id].monthlyTotals.value, PeriodOf(clock), data.name).None?
    ensures CurrentMonthTotal(UpdateIncome(db, id, data).income[id].monthlyTotals, clock, UpdateIncome(db, id, data).income[id].name) == 0.0
  {
  }

  /** The set of ids in a list of rows. */
  function Ids(rows: seq<IncomeRow>): set<nat> {
    set i | 0 <= i < |rows| :: rows[i].id
  }

  /** What the due query returns: each due row once, as stored, in some
      order. */
  predicate IsDueQuery(db: Db, now: Instant, due: seq<IncomeRow>) {
    && (forall i | 0 <= i < |due| :: due[i].id in db.income && db.income[due[i].id] == due[i])
    && (forall i, j | 0 <= i < j < |due| :: due[i].id != due[j].id)
    && (forall id | id in db.income :: id in Ids(due) <==> IsDue(db.income[id].nextPaymentDate, now))
  }

  /** What the sweep does to one due row: the booked amount added to its
      totals and its next payment date moved by one step. */
  function Settle(row: IncomeRow, clock: Clock, addMonths: MonthAdder): (r: IncomeRow)
    ensures r == row.(monthlyTotals := r.monthlyTotals, nextPaymentDate := r.nextPaymentDate)
    ensures r.monthlyTotals == BookInto(row.monthlyTotals, clock, row.name, RowPayment(row))
    ensures r.nextPaymentDate == Some(NextPaymentDate(row.nextPaymentDate, clock.now, row.frequency, addMonths))
  {
    row.(monthlyTotals := BookInto(row.monthlyTotals, clock, row.name, RowPayment(row)),
         nextPaymentDate := Some(NextPaymentDate(row.nextPaymentDate, clock.now, row.frequency, addMonths)))
  }

  /** The sweep described without an order: every due row settled once,
      every other row as it was. */
  function SweepReference(db: Db, clock: Clock, addMonths: MonthAdder): Db {
    db.(income := map id | id in db.income ::
          if IsDue(db.income[id].nextPaymentDate, clock.now) then Settle(db.income[id], clock, addMonths)
          else db.income[id])
  }

  /** One pass of the sweep's `forEach`: book the loaded row's amount, then
      store its advanced date. Only that row changes, and a row loaded as
      stored comes out settled. */
  function SettleStored(db: Db, row: IncomeRow, clock: Clock, addMonths: MonthAdder): (r: Db)
    ensures r.income.Keys == db.income.Keys && r.deductions == db.deductions && r.nextId == db.nextId
    ensures forall other | other in db.income && other != row.id :: r.income[other] == db.income[other]
    ensures row.id in db.income && db.income[row.id] == row ==> r.income[row.id] == Settle(row, clock, addMonths)
  {
    var booked := BookPayment(db, row.id, RowPayment(row), clock);
    SetNextPaymentDate(booked, row.id, NextPaymentDate(row.nextPaymentDate, clock.now, row.frequency, addMonths))
  }

  /** `r` is `db` with exactly the rows whose ids are in `done` settled. */
  predicate SettledExactly(db: Db, r: Db, done: set<nat>, clock: Clock, addMonths: MonthAdder) {
    && r.deductions == db.deductions && r.nextId == db.nextId
    && r.income.Keys == db.income.Keys
    && forall id | id in db.income ::
         r.income[id] == if id in done then Settle(db.income[id], clock, addMonths) else db.income[id]
  }

  /** `income:processDuePayments`: for each due row, in the order the query
      returns them, book its amount, then advance its date once. */
  method ProcessDuePayments(db: Db, clock: Clock, addMonths: MonthAdder, due: seq<IncomeRow>) returns (r: Db)
    requires IsDueQuery(db, clock.now, due)
    ensures r == SweepReference(db, clock, addMonths)
  {
    r := db;
    var i := 0;
    assert Ids(due[..0]) == {};
    while i < |due|
      invariant 0 <= i <= |due|
      invariant SettledExactly(db, r, Ids(due[..i]), clock, addMonths)
    {
      SettleNext(db, clock, addMonths, due, i, r);
      r := SettleStored(r, due[i], clock, addMonths);
      i := i + 1;
    }
    assert due[..|due|] == due;
    SweptRowsAreTheDueRows(db, clock, addMonths, due, r);
  }

  /** Settling the next row of the query result extends the settled ids by
      that row's id: the row has not been settled before, and it is still
      as stored. */
  lemma SettleNext(db: Db, clock: Clock, addMonths: MonthAdder, due: seq<IncomeRow>, i: nat, r: Db)
    requires IsDueQuery(db, clock.now, due) && i < |due|
    requires SettledExactly(db, r, Ids(due[..i]), clock, addMonths)
    ensures SettledExactly(db, SettleStored(r, due[i], clock, addMonths), Ids(due[..i + 1]), clock, addMonths)
  {
    assert due[i].id !in Ids(due[..i]);
    assert Ids(due[..i + 1]) == Ids(due[..i]) + {due[i].id};
  }

  /** A table in which exactly the rows the due query returned are settled
      is the sweep's reference result. */
  lemma SweptRowsAreTheDueRows(db: Db, clock: Clock, addMonths: MonthAdder, due: seq<IncomeRow>, r: Db)
    requires IsDueQuery(db, clock.now, due)
    requires SettledExactly(db, r, Ids(due), clock, addMonths)
    ensures r == SweepReference(db, clock, addMonths)
  {
    var swept := SweepReference(db, clock, addMonths);
    forall id | id in db.income
      ensures r.income[id] == swept.income[id]
    {
    }
    assert r.income == swept.income;
  }

  /** Rows that are not due come out of the sweep unchanged, and nothing
      but the income rows changes. */
  lemma SweepLeavesOthers(db: Db, clock: Clock, addMonths: MonthAdder, id: nat)
    requires id in db.income && !IsDue(db.income[id].nextPaymentDate, clock.now)
    ensures SweepReference(db, clock, addMonths).income[id] == db.income[id]
    ensures SweepReference(db, clock, addMonths).deductions == db.deductions
    ensures SweepReference(db, clock, addMonths).nextId == db.nextId
  {
  }

  /** A due row gets exactly one booking of its gross paycheck in the
      current month, and its date moves by exactly one step. */
  lemma SweepSettlesDueOnce(db: Db, clock: Clock, addMonths: MonthAdder, id: nat)
    requires id in db.income && IsDue(db.income[id].nextPaymentDate, clock.now)
    requires db.income[id].monthlyTotals.Some?
    ensures var row := db.income[id];
            var after := SweepReference(db, clock, addMonths).income[id];
            && after.monthlyTotals == Some(Accumulate(row.monthlyTotals.value, PeriodOf(clock), row.name,
                                                      AmountOrZero(row.amount) / PaychecksPerYear(row.frequency)))
            && after.nextPaymentDate == Some(ApplyStep(StepOf(row.frequency), row.nextPaymentDate.value, addMonths))
  {
    AdvanceTakesStep(db.income[id].nextPaymentDate, clock.now, db.income[id].frequency, addMonths);
  }

  /** A due row whose frequency is `none`, unlisted or missing keeps its
      date, so the next sweep books it again. */
  lemma UnscheduledBooksEverySweep(db: Db, clock: Clock, addMonths: MonthAdder, id: nat)
    requires id in db.income && IsDue(db.income[id].nextPaymentDate, clock.now)
    requires !Scheduled(db.income[id].frequency)
    ensures IsDue(SweepReference(db, clock, addMonths).income[id].nextPaymentDate, clock.now)
  {
    UnscheduledStaysDue(db.income[id].nextPaymentDate, clock.now, db.income[id].frequency, addMonths);
  }

  /** A row whose totals do not parse still has its date advanced: the
      booking is lost but the payment is consumed. */
  lemma UnparsedTotalsStillAdvance(db: Db, clock: Clock, addMonths: MonthAdder, id: nat)
    requires id in db.income && IsDue(db.income[id].nextPaymentDate, clock.now)
    requires db.income[id].monthlyTotals.None?
    ensures SweepReference(db, clock, addMonths).income[id].monthlyTotals.None?
    ensures SweepReference(db, clock, addMonths).income[id].nextPaymentDate
            == Some(NextPaymentDate(db.income[id].nextPaymentDate, clock.now, db.income[id].frequency, addMonths))
  {
  }

  /** The sweep keeps the table's ids and validity. */
  lemma SweepKeepsValid(db: Db, clock: Clock, addMonths: MonthAdder)
    requires Valid(db)
    ensures Valid(SweepReference(db, clock, addMonths))
    ensures SweepReference(db, clock, addMonths).income.Keys == db.income.Keys
  {
  }
}
