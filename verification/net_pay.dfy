/** Per-paycheck net pay (`calculatePaymentAmount` in
    src/main/ipc/income.ts): the annual amount over the paychecks per year,
    minus one contribution per deduction item. */
module NetPay {
  import opened Wrappers
  import opened PayFrequency
  import Lists

  /** The stored `type`, `format` and `frequency` texts of an item,
      classified; `Unlisted…` stands for any text outside the form's lists. */
  datatype ItemKind = Credit | Deduction | UnlistedKind
  datatype ItemFormat = Percent | FixedAmount | UnlistedFormat
  datatype ItemFrequency = PerPaycheck | PerMonth | PerYear | UnlistedFrequency

  function ItemKindOf(text: string): (k: ItemKind)
    ensures k == UnlistedKind <==> text !in {"credit", "deduction"}
  {
    if text == "credit" then Credit else if text == "deduction" then Deduction else UnlistedKind
  }

  function ItemFormatOf(text: string): (f: ItemFormat)
    ensures f == UnlistedFormat <==> text !in {"percent", "amount"}
    ensures f == Percent <==> text == "percent"
  {
    if text == "percent" then Percent else if text == "amount" then FixedAmount else UnlistedFormat
  }

  function ItemFrequencyOf(text: string): (f: ItemFrequency)
    ensures f == UnlistedFrequency <==> text !in {"per_paycheck", "monthly", "annually"}
  {
    if text == "per_paycheck" then PerPaycheck
    else if text == "monthly" then PerMonth
    else if text == "annually" then PerYear
    else UnlistedFrequency
  }

  /** A deduction or credit line of an income source. */
  datatype DeductionItem = DeductionItem(
    name: string,
    kind: ItemKind,
    format: ItemFormat,
    value: real,
    frequency: ItemFrequency)

  /** `income.amount || 0`. */
  function AmountOrZero(amount: Option<real>): real {
    amount.GetOr(0.0)
  }

  /** The gross amount of one paycheck. */
  function BaseAmount(amount: Option<real>, frequency: Option<Frequency>): (base: real)
    ensures base * PaychecksPerYear(frequency) == AmountOrZero(amount)
  {
    AmountOrZero(amount) / PaychecksPerYear(frequency)
  }

  /** A strictly positive count of paychecks. */
  type PositiveReal = r: real | r > 0.0 witness 1.0

  /** The two per-period paycheck counts of a pay frequency, which the
      deduction loop consults. */
  datatype Paychecks = Paychecks(perMonth: PositiveReal, perYear: PositiveReal)

  function PaychecksOf(frequency: Option<Frequency>): (p: Paychecks)
    ensures p.perMonth == PaychecksPerMonth(frequency) && p.perYear == PaychecksPerYear(frequency)
  {
    Paychecks(PaychecksPerMonth(frequency), PaychecksPerYear(frequency))
  }

  /** The item's own period expressed in paychecks: a per-paycheck item is
      taken whole, a monthly one is spread over the paychecks per month, an
      annual one over the paychecks per year. */
  function Divisor(paychecks: Paychecks, period: ItemFrequency): PositiveReal
    requires period != UnlistedFrequency
  {
    match period
    case PerPaycheck => 1.0
    case PerMonth => paychecks.perMonth
    case PerYear => paychecks.perYear
  }

  /** A percent item's share of the base, per paycheck: its percentage
      spread over the item's period. */
  function Rate(paychecks: Paychecks, item: DeductionItem): real
    requires item.frequency != UnlistedFrequency
  {
    (item.value / 100.0) / Divisor(paychecks, item.frequency)
  }

  /** What one item takes off a paycheck: a percent item takes its rate of
      the per-paycheck base, any other format its fixed value spread over
      the item's period, and an item whose frequency is not listed takes
      nothing (the switch's empty `default`). The percent case is grouped as
      base times rate; `ContributionMatchesSource` shows this equals the
      source's percentage-then-divide. */
  function Contribution(base: real, paychecks: Paychecks, item: DeductionItem): real
  {
    if item.frequency == UnlistedFrequency then 0.0
    else if item.format == Percent then base * Rate(paychecks, item)
    else item.value / Divisor(paychecks, item.frequency)
  }

  /** The contribution is the source's amount (`base * value / 100` for a
      percent item, `value` otherwise) divided by the paychecks in the
      item's period: 1 per paycheck, per month or per year. */
  lemma ContributionMatchesSource(base: real, frequency: Option<Frequency>, item: DeductionItem)
    requires item.frequency != UnlistedFrequency
    ensures var amount := if item.format == Percent then base * (item.value / 100.0) else item.value;
            var divisor := match item.frequency
                           case PerPaycheck => 1.0
                           case PerMonth => PaychecksPerMonth(frequency)
                           case _ => PaychecksPerYear(frequency);
            Contribution(base, PaychecksOf(frequency), item) == amount / divisor
  {
    var d := Divisor(PaychecksOf(frequency), item.frequency);
    if item.format == Percent {
      var p := item.value / 100.0;
      assert base * (p / d) == (base * p) / d;
    }
  }

  /** `totalDeductions` after the `forEach` over the items, in list order. */
  function TotalDeductions(base: real, paychecks: Paychecks, items: seq<DeductionItem>): real
  {
    if items == [] then 0.0
    else
      var last := |items| - 1;
      TotalDeductions(base, paychecks, items[..last]) + Contribution(base, paychecks, items[last])
  }

  /** `calculatePaymentAmount`, with the deduction list as an explicit
      argument: the caller passes whatever the loaded record carries. The
      result has no floor at zero. */
  function PaymentAmount(amount: Option<real>, frequency: Option<Frequency>, deductions: seq<DeductionItem>): (net: real)
    ensures deductions == [] ==> net == AmountOrZero(amount) / PaychecksPerYear(frequency)
  {
    var base := BaseAmount(amount, frequency);
    base - TotalDeductions(base, PaychecksOf(frequency), deductions)
  }

  /** With a non-negative amount and non-negative item values, the net pay
      never exceeds the gross paycheck. */
  lemma NetPayAtMostGross(amount: Option<real>, frequency: Option<Frequency>, deductions: seq<DeductionItem>)
    requires AmountOrZero(amount) >= 0.0
    requires forall i | 0 <= i < |deductions| :: deductions[i].value >= 0.0
    ensures PaymentAmount(amount, frequency, deductions) <= AmountOrZero(amount) / PaychecksPerYear(frequency)
  {
    TotalDeductionsNonNegative(BaseAmount(amount, frequency), PaychecksOf(frequency), deductions);
  }

  /** Items with non-negative values never add to the paycheck. */
  lemma {:induction false} TotalDeductionsNonNegative(base: real, paychecks: Paychecks, items: seq<DeductionItem>)
    ensures (base >= 0.0 && forall i | 0 <= i < |items| :: items[i].value >= 0.0)
            ==> TotalDeductions(base, paychecks, items) >= 0.0
  {
    if items != [] && base >= 0.0 && forall i | 0 <= i < |items| :: items[i].value >= 0.0 {
      var last := |items| - 1;
      TotalDeductionsNonNegative(base, paychecks, items[..last]);
      ContributionNonNegative(base, paychecks, items[last]);
    }
  }

  /** A non-negative item on a non-negative base takes a non-negative amount. */
  lemma ContributionNonNegative(base: real, paychecks: Paychecks, item: DeductionItem)
    requires base >= 0.0 && item.value >= 0.0
    ensures Contribution(base, paychecks, item) >= 0.0
  {
    if item.frequency != UnlistedFrequency && item.format == Percent {
      var r := Rate(paychecks, item);
      assert r >= 0.0;
      assert base * r >= 0.0;
    }
  }

  /** Items whose frequency is not listed can be dropped without changing
      anything. */
  lemma {:induction false} UnlistedItemsTakeNothing(base: real, paychecks: Paychecks, items: seq<DeductionItem>)
    requires forall i | 0 <= i < |items| :: items[i].frequency == UnlistedFrequency
    ensures TotalDeductions(base, paychecks, items) == 0.0
  {
    if items != [] {
      UnlistedItemsTakeNothing(base, paychecks, items[..|items| - 1]);
    }
  }

  /** The total over a concatenation is the sum of the totals. */
  lemma {:induction false} TotalDeductionsAppend(base: real, paychecks: Paychecks, xs: seq<DeductionItem>, ys: seq<DeductionItem>)
    ensures TotalDeductions(base, paychecks, xs + ys)
            == TotalDeductions(base, paychecks, xs) + TotalDeductions(base, paychecks, ys)
    decreases |ys|
  {
    if ys != [] {
      var last := |ys| - 1;
      assert (xs + ys)[..|xs + ys| - 1] == xs + ys[..last];
      assert (xs + ys)[|xs + ys| - 1] == ys[last];
      TotalDeductionsAppend(base, paychecks, xs, ys[..last]);
    } else {
      assert xs + ys == xs;
    }
  }

  lemma SingleItemTotal(base: real, paychecks: Paychecks, item: DeductionItem)
    ensures TotalDeductions(base, paychecks, [item]) == Contribution(base, paychecks, item)
  {
    assert [item][..0] == [];
  }

  /** The order of the deduction list does not matter: any permutation of it
      gives the same total. */
  lemma {:induction false} TotalDeductionsPermutation(base: real, paychecks: Paychecks, xs: seq<DeductionItem>, ys: seq<DeductionItem>)
    requires multiset(xs) == multiset(ys)
    ensures TotalDeductions(base, paychecks, xs) == TotalDeductions(base, paychecks, ys)
    decreases |xs|
  {
    if xs == [] {
      assert |ys| == |multiset(ys)| == 0;
    } else {
      var last := |xs| - 1;
      assert xs[last] in multiset(ys) by {
        assert xs == xs[..last] + [xs[last]];
      }
      var j :| 0 <= j < |ys| && ys[j] == xs[last];
      Lists.MultisetRemoveMatching(xs, ys, j);
      TotalDeductionsPermutation(base, paychecks, xs[..last], Lists.RemoveIndex(ys, j));
      TotalDeductionsRemove(base, paychecks, ys, j);
    }
  }

  /** Taking one item out of the list takes exactly its contribution out of
      the total. */
  lemma TotalDeductionsRemove(base: real, paychecks: Paychecks, items: seq<DeductionItem>, j: int)
    requires 0 <= j < |items|
    ensures TotalDeductions(base, paychecks, items)
            == TotalDeductions(base, paychecks, Lists.RemoveIndex(items, j)) + Contribution(base, paychecks, items[j])
  {
    assert items == items[..j] + [items[j]] + items[j + 1..];
    TotalDeductionsAppend(base, paychecks, items[..j], [items[j]]);
    TotalDeductionsAppend(base, paychecks, items[..j] + [items[j]], items[j + 1..]);
    TotalDeductionsAppend(base, paychecks, items[..j], items[j + 1..]);
    SingleItemTotal(base, paychecks, items[j]);
  }

  /** An item's kind is never consulted: lists that differ only in which
      items are credits and which are deductions give the same net pay, so a
      credit is subtracted exactly like a deduction. */
  lemma KindNeverMatters(amount: Option<real>, frequency: Option<Frequency>, xs: seq<DeductionItem>, ys: seq<DeductionItem>)
    requires |xs| == |ys|
    requires forall i | 0 <= i < |xs| :: ys[i] == xs[i].(kind := ys[i].kind)
    ensures PaymentAmount(amount, frequency, xs) == PaymentAmount(amount, frequency, ys)
  {
    SameTotalWhenOnlyKindsDiffer(BaseAmount(amount, frequency), PaychecksOf(frequency), xs, ys);
  }

  lemma {:induction false} SameTotalWhenOnlyKindsDiffer(base: real, paychecks: Paychecks, xs: seq<DeductionItem>, ys: seq<DeductionItem>)
    requires |xs| == |ys|
    requires forall i | 0 <= i < |xs| :: ys[i] == xs[i].(kind := ys[i].kind)
    ensures TotalDeductions(base, paychecks, xs) == TotalDeductions(base, paychecks, ys)
    decreases |xs|
  {
    if xs != [] {
      var last := |xs| - 1;
      SameTotalWhenOnlyKindsDiffer(base, paychecks, xs[..last], ys[..last]);
      assert ys[last] == xs[last].(kind := ys[last].kind);
      ContributionIgnoresKind(base, paychecks, xs[last], ys[last].kind);
    }
  }

  lemma ContributionIgnoresKind(base: real, paychecks: Paychecks, item: DeductionItem, kind: ItemKind)
    ensures Contribution(base, paychecks, item.(kind := kind)) == Contribution(base, paychecks, item)
  {
  }

  /** A credit and a deduction of the same size take the same amount off. */
  lemma CreditSubtractedLikeDeduction(amount: Option<real>, frequency: Option<Frequency>, item: DeductionItem)
    ensures var base := BaseAmount(amount, frequency);
            PaymentAmount(amount, frequency, [item.(kind := Credit)])
            == PaymentAmount(amount, frequency, [item.(kind := Deduction)])
            == base - Contribution(base, PaychecksOf(frequency), item)
  {
    var base := BaseAmount(amount, frequency);
    var paychecks := PaychecksOf(frequency);
    SingleItemTotal(base, paychecks, item.(kind := Credit));
    SingleItemTotal(base, paychecks, item.(kind := Deduction));
    ContributionIgnoresKind(base, paychecks, item, Credit);
    ContributionIgnoresKind(base, paychecks, item, Deduction);
  }

  /** `kt == k * t` when `t` and `kt` split into parts that scale by `k`. */
  lemma ScaledSum(k: real, t: real, a: real, c: real, kt: real, ka: real, kc: real)
    requires t == a + c && kt == ka + kc
    requires ka == k * a && kc == k * c
    ensures kt == k * t
  {
  }

  /** `kt == k * t` when `t` and `kt` are differences of parts that scale by `k`. */
  lemma ScaledDifference(k: real, t: real, a: real, c: real, kt: real, ka: real, kc: real)
    requires t == a - c && kt == ka - kc
    requires ka == k * a && kc == k * c
    ensures kt == k * t
  {
  }

  lemma PercentContributionScales(base: real, k: real, kbase: real, paychecks: Paychecks, item: DeductionItem)
    requires item.format == Percent && kbase == k * base
    ensures Contribution(kbase, paychecks, item) == k * Contribution(base, paychecks, item)
  {
  }

  /** With only percent items, the total scales with the base. */
  lemma {:induction false} PercentTotalScales(base: real, k: real, kbase: real, paychecks: Paychecks, items: seq<DeductionItem>)
    requires forall i | 0 <= i < |items| :: items[i].format == Percent
    requires kbase == k * base
    ensures TotalDeductions(kbase, paychecks, items) == k * TotalDeductions(base, paychecks, items)
    decreases |items|
  {
    if items != [] {
      var last := |items| - 1;
      var init := items[..last];
      PercentTotalScales(base, k, kbase, paychecks, init);
      PercentContributionScales(base, k, kbase, paychecks, items[last]);
      ScaledSum(k, TotalDeductions(base, paychecks, items),
                TotalDeductions(base, paychecks, init), Contribution(base, paychecks, items[last]),
                TotalDeductions(kbase, paychecks, items),
                TotalDeductions(kbase, paychecks, init), Contribution(kbase, paychecks, items[last]));
    }
  }

  lemma BaseAmountScales(annual: real, k: real, frequency: Option<Frequency>)
    ensures BaseAmount(Some(k * annual), frequency) == k * BaseAmount(Some(annual), frequency)
  {
    var n := PaychecksPerYear(frequency);
    assert (k * annual) / n == k * (annual / n);
  }

  /** With only percent items, scaling the annual amount by `k` scales the net
      pay by `k`. */
  lemma PercentOnlyIsLinear(annual: real, k: real, frequency: Option<Frequency>, items: seq<DeductionItem>)
    requires forall i | 0 <= i < |items| :: items[i].format == Percent
    ensures PaymentAmount(Some(k * annual), frequency, items) == k * PaymentAmount(Some(annual), frequency, items)
  {
    var base := BaseAmount(Some(annual), frequency);
    BaseAmountScales(annual, k, frequency);
    var paychecks := PaychecksOf(frequency);
    var kbase := BaseAmount(Some(k * annual), frequency);
    PercentTotalScales(base, k, kbase, paychecks, items);
    ScaledDifference(k, PaymentAmount(Some(annual), frequency, items),
                     base, TotalDeductions(base, paychecks, items),
                     PaymentAmount(Some(k * annual), frequency, items),
                     kbase, TotalDeductions(kbase, paychecks, items));
  }

  /** 120000 a year, paid monthly, minus 20% per paycheck, is 8000. */
  lemma PercentScenario()
    ensures PaymentAmount(Some(120000.0), Some(Monthly),
                          [DeductionItem("Tax", Deduction, Percent, 20.0, PerPaycheck)]) == 8000.0
  {
    SingleItemTotal(10000.0, PaychecksOf(Some(Monthly)), DeductionItem("Tax", Deduction, Percent, 20.0, PerPaycheck));
  }

  /** 120000 a year, paid monthly, minus a fixed 1200 a year, is 9900. */
  lemma AnnualFixedScenario()
    ensures PaymentAmount(Some(120000.0), Some(Monthly),
                          [DeductionItem("Insurance", Deduction, FixedAmount, 1200.0, PerYear)]) == 9900.0
  {
    SingleItemTotal(10000.0, PaychecksOf(Some(Monthly)), DeductionItem("Insurance", Deduction, FixedAmount, 1200.0, PerYear));
  }

  /** Nothing floors the result: a fixed deduction larger than the paycheck
      gives negative net pay. */
  lemma NetPayCanBeNegative()
    ensures PaymentAmount(None, Some(Weekly),
                          [DeductionItem("Fee", Deduction, FixedAmount, 10.0, PerPaycheck)]) == -10.0
  {
    SingleItemTotal(0.0, PaychecksOf(Some(Weekly)), DeductionItem("Fee", Deduction, FixedAmount, 10.0, PerPaycheck));
  }
}
