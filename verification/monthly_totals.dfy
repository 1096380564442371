/** The `monthly_totals` column of an income source: a nested map from the
    year text to the month text to the source name to the amount booked.
    The main process adds to an entry (`updateMonthlyTotal` in
    src/main/ipc/income.ts) and the Income page reads an entry and
    overwrites one (src/renderer/pages/Income.tsx). */
module MonthlyTotals {
  import opened Wrappers
  import opened Decimal
  import opened Schedule

  type Totals = map<string, map<string, map<string, real>>>

  /** The year and month keys of one calendar month. */
  datatype Period = Period(year: string, month: string)

  /** `getFullYear().toString()` and `(getMonth() + 1).toString()`: the
      year in decimal and the 1-based month without a leading zero. */
  function PeriodOf(clock: Clock): (p: Period)
    ensures forall i | 0 <= i < |p.year| :: IsDigit(p.year[i])
    ensures forall i | 0 <= i < |p.month| :: IsDigit(p.month[i])
    ensures DigitsValue(p.year) == clock.year
    ensures DigitsValue(p.month) == clock.monthIndex + 1
    ensures 1 <= |p.month| <= 2 && p.month[0] != '0'
    ensures |p.month| == 2 <==> clock.monthIndex >= 9
  {
    DigitsValueOfNatToString(clock.year);
    DigitsValueOfNatToString(clock.monthIndex + 1);
    Period(NatToString(clock.year), NatToString(clock.monthIndex + 1))
  }

  /** Clocks in different calendar months write to different keys. */
  lemma PeriodOfInjective(c1: Clock, c2: Clock)
    requires (c1.year, c1.monthIndex) != (c2.year, c2.monthIndex)
    ensures PeriodOf(c1) != PeriodOf(c2)
  {
    if c1.year != c2.year {
      NatToStringInjective(c1.year, c2.year);
    } else {
      NatToStringInjective(c1.monthIndex + 1, c2.monthIndex + 1);
    }
  }

  /** `totals[year]?.[month]?.[name]`. */
  function Get(totals: Totals, p: Period, name: string): Option<real> {
    if p.year in totals && p.month in totals[p.year] && name in totals[p.year][p.month]
    then Some(totals[p.year][p.month][name])
    else None
  }

  /** `totals[year]?.[month]?.[name] || 0`: a missing entry reads as 0. */
  function Lookup(totals: Totals, p: Period, name: string): real {
    Get(totals, p, name).GetOr(0.0)
  }

  /** Writes one entry, first creating the year and month levels when they
      are missing. */
  function Put(totals: Totals, p: Period, name: string, value: real): (r: Totals)
    ensures Get(r, p, name) == Some(value)
    ensures forall q: Period, n: string | (q, n) != (p, name) :: Get(r, q, n) == Get(totals, q, n)
    ensures r.Keys == totals.Keys + {p.year}
  {
    var months := if p.year in totals then totals[p.year] else map[];
    var names := if p.month in months then months[p.month] else map[];
    totals[p.year := months[p.month := names[name := value]]]
  }

  /** Writing an entry twice keeps only the second write. */
  lemma PutPut(totals: Totals, p: Period, name: string, a: real, b: real)
    ensures Put(Put(totals, p, name, a), p, name, b) == Put(totals, p, name, b)
  {
    var once := Put(totals, p, name, b);
    var twice := Put(Put(totals, p, name, a), p, name, b);
    assert twice.Keys == once.Keys;
    forall y | y in once
      ensures twice[y] == once[y]
    {
      if y == p.year {
        assert twice[y].Keys == once[y].Keys;
        forall m | m in once[y]
          ensures twice[y][m] == once[y][m]
        {
        }
      }
    }
  }

  /** Writing back the value already stored changes nothing. */
  lemma PutCurrent(totals: Totals, p: Period, name: string)
    requires Get(totals, p, name).Some?
    ensures Put(totals, p, name, Get(totals, p, name).value) == totals
  {
    var r := Put(totals, p, name, Get(totals, p, name).value);
    assert r.Keys == totals.Keys;
    forall y | y in totals
      ensures r[y] == totals[y]
    {
      if y == p.year {
        assert r[y].Keys == totals[y].Keys;
        forall m | m in totals[y]
          ensures r[y][m] == totals[y][m]
        {
        }
      }
    }
  }

  /** The main process's additive upsert: the entry becomes its old value
      (or 0) plus `amount`. */
  function Accumulate(totals: Totals, p: Period, name: string, amount: real): (r: Totals)
    ensures Get(r, p, name) == Some(Lookup(totals, p, name) + amount)
    ensures forall q: Period, n: string | (q, n) != (p, name) :: Get(r, q, n) == Get(totals, q, n)
  {
    Put(totals, p, name, Lookup(totals, p, name) + amount)
  }

  /** Two bookings into the same entry equal one booking of their sum. */
  lemma AccumulateTwice(totals: Totals, p: Period, name: string, a: real, b: real)
    ensures Accumulate(Accumulate(totals, p, name, a), p, name, b) == Accumulate(totals, p, name, a + b)
  {
    var once := Accumulate(totals, p, name, a);
    assert Lookup(once, p, name) + b == Lookup(totals, p, name) + (a + b);
    PutPut(totals, p, name, Lookup(totals, p, name) + a, Lookup(totals, p, name) + (a + b));
  }

  /** Booking 0 into an existing entry changes nothing. */
  lemma AccumulateZero(totals: Totals, p: Period, name: string)
    requires Get(totals, p, name).Some?
    ensures Accumulate(totals, p, name, 0.0) == totals
  {
    PutCurrent(totals, p, name);
  }

  /** The Income page's adjust: the entry becomes `amount`, whatever it held. */
  function SetAbsolute(totals: Totals, p: Period, name: string, amount: real): (r: Totals)
    ensures Get(r, p, name) == Some(amount)
    ensures forall q: Period, n: string | (q, n) != (p, name) :: Get(r, q, n) == Get(totals, q, n)
  {
    Put(totals, p, name, amount)
  }

  /** Adjusting twice to the same amount is adjusting once, and a later
      adjust overrides an earlier one. */
  lemma SetAbsoluteIdempotent(totals: Totals, p: Period, name: string, a: real, b: real)
    ensures SetAbsolute(SetAbsolute(totals, p, name, a), p, name, a) == SetAbsolute(totals, p, name, a)
    ensures SetAbsolute(SetAbsolute(totals, p, name, a), p, name, b) == SetAbsolute(totals, p, name, b)
  {
    PutPut(totals, p, name, a, a);
    PutPut(totals, p, name, a, b);
  }

  /** An adjust overwrites instead of adding: booking after an adjust starts
      from the adjusted amount, not from what was there before. */
  lemma AdjustThenBook(totals: Totals, p: Period, name: string, amount: real, paid: real)
    ensures Accumulate(SetAbsolute(totals, p, name, amount), p, name, paid)
            == SetAbsolute(totals, p, name, amount + paid)
  {
    PutPut(totals, p, name, amount, amount + paid);
  }

  /** `updateMonthlyTotal` on the stored column: a column that parses gets
      the amount added under the current period and the source's name; one
      that does not parse is logged and left as it is. */
  function BookInto(stored: Option<Totals>, clock: Clock, name: string, amount: real): (r: Option<Totals>)
    ensures stored.None? ==> r.None?
    ensures stored.Some? ==>
              r.Some? && Get(r.value, PeriodOf(clock), name) == Some(Lookup(stored.value, PeriodOf(clock), name) + amount)
    ensures stored.Some? ==>
              forall q: Period, n: string | (q, n) != (PeriodOf(clock), name) :: Get(r.value, q, n) == Get(stored.value, q, n)
  {
    match stored
    case None => None
    case Some(totals) => Some(Accumulate(totals, PeriodOf(clock), name, amount))
  }

  /** The Income page's read: 0 for a column that does not parse and for a
      missing year, month or name, otherwise the stored amount. */
  function CurrentMonthTotal(stored: Option<Totals>, clock: Clock, name: string): (r: real)
    ensures stored.None? ==> r == 0.0
    ensures stored.Some? && Get(stored.value, PeriodOf(clock), name).None? ==> r == 0.0
    ensures stored.Some? && Get(stored.value, PeriodOf(clock), name).Some? ==> r == Get(stored.value, PeriodOf(clock), name).value
  {
    match stored
    case None => 0.0
    case Some(totals) => Lookup(totals, PeriodOf(clock), name)
  }

  /** A booking shows up in the page's read of the same month. */
  lemma BookingIsRead(totals: Totals, clock: Clock, name: string, amount: real)
    ensures CurrentMonthTotal(BookInto(Some(totals), clock, name, amount), clock, name)
            == CurrentMonthTotal(Some(totals), clock, name) + amount
  {
  }

  /** A booking in one month leaves every other month's read as it was. */
  lemma BookingStaysInItsMonth(totals: Totals, booked: Clock, read: Clock, name: string, other: string, amount: real)
    requires (booked.year, booked.monthIndex) != (read.year, read.monthIndex)
    ensures CurrentMonthTotal(BookInto(Some(totals), booked, name, amount), read, other)
            == CurrentMonthTotal(Some(totals), read, other)
  {
    PeriodOfInjective(booked, read);
  }
}
