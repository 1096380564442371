# Budget income engine in Dafny

This project models the income engine of a desktop budget app and proves
properties of it. The app is built with Electron, React and SQLite. The
engine covers:

- the paycheck-frequency tables;
- per-paycheck net pay after percent and fixed deduction or credit items,
  charged per paycheck, per month or per year;
- the one-step advance of a source's next payment date;
- the nested `monthly_totals` map (year → month → source name → amount),
  which the main process adds to and the Income page reads and overwrites;
- the create, update and due-payment sweep handlers, as pure transitions of
  a table modelled as a map from id to record;
- the pure parts of the income, payment-method and vehicle dialogs: their
  validation schemas, list add/remove operations, submit-time
  normalisation and input fallbacks;
- the ordinal-suffix helpers and row-cell rules of the Payment Methods and
  Vehicles pages;
- the currency-symbol dispatch of `formatCurrency`.

How values are represented:

- Amounts are exact `real`s.
- Instants are integer milliseconds on one time line.
- Calendar month steps (`addMonths`; `addYears(d, 1)` is `addMonths(d, 12)`)
  come from the caller as a function.
- A `monthly_totals` column that does not parse is `None`.
- Select fields are classified once into datatypes. An `Unlisted…`
  constructor stands for any text outside the schema's enumeration.

Modules follow the source:

| module | models |
|---|---|
| `PayFrequency` | the frequency tables |
| `NetPay` | net pay |
| `Schedule` | the date advance and the due test |
| `MonthlyTotals` | the nested totals map |
| `IncomeStore` | the income handlers |
| `IncomePage` | the Income page's read and adjust |
| `IncomeForm`, `PaymentMethodForm`, `VehicleForm` | the three dialogs |
| `PaymentMethodsPage`, `VehiclesPage` | the two tables |
| `Currency` | `formatCurrency` |

`Wrappers`, `Lists`, `Decimal`, `JsNumber` and `Ordinal` are helpers:

- an option type;
- the index-filter used by every Remove button;
- decimal `toString`;
- JavaScript's truncating `%`, truthiness and `Math.round`;
- the English ordinal rule, which is the reference for `getOrdinalSuffix`.
  The Vehicles page defines its own `getOrdinalSuffix`
  (src/renderer/pages/assets/Vehicles.tsx:14-28) with the same text as the
  Payment Methods page's, so the model defines the helper once, as
  `PaymentMethodsPage.OrdinalSuffix`.

A `monthly_totals` column that does not parse is logged and left as it is
(src/main/ipc/income.ts:100-102). In the model, `None` stays `None`.

The create and sweep handlers load their record with `SELECT * FROM income`,
which does not join the deduction table. The payment they book is therefore
always the gross paycheck: `IncomeStore.LoadedDeductions` is empty, and
`IncomeStore.BookedAmountIsGross` states the consequence.

## Model

| member | source | states |
|---|---|---|
| Lists.RemoveIndex | src/renderer/components/PaymentMethodDialog.tsx:404-407 | The index filter: inside the list it is the list without exactly that position; outside it is the list unchanged. |
| Lists.RemoveIndexShape | src/renderer/components/IncomeDialog.tsx:392-398 | Removing a position shortens the list by one; earlier items keep their index and later ones move down by one. |
| Lists.MultisetRemoveMatching | src/main/ipc/income.ts:38-56 | Helper for order-independence: taking a matching element out of two permutations leaves permutations. |
| Lists.MultisetWithout | src/main/ipc/income.ts:38-56 | A list's multiset is the multiset without one position, plus that element. |
| Lists.MultisetCancel | src/main/ipc/income.ts:38-56 | Cancellation: when two multisets are equal after each gains the same element, they were equal before. |
| Decimal.DigitChar | src/main/ipc/income.ts:87-88 | Each digit 0-9 maps to its decimal character. |
| Decimal.NatToString | src/main/ipc/income.ts:87-88 | `toString()` of a natural: a non-empty digit string with no leading zero, one character exactly below 10. |
| Decimal.DigitsValueOfNatToString | src/main/ipc/income.ts:87-88 | Reading the digits back gives the number: the key text is a faithful encoding. |
| Decimal.NatToStringInjective | src/main/ipc/income.ts:87-88 | Different numbers give different key texts. |
| JsNumber.Rem | src/renderer/pages/spending/PaymentMethods.tsx:20 | JavaScript `%`: equal to the Euclidean remainder for non-negative dividends; in (-b, 0] for negative ones. |
| JsNumber.RemIsOdd | src/renderer/pages/spending/PaymentMethods.tsx:20 | The truncating remainder is odd in the dividend, unlike Dafny's `%`. |
| JsNumber.Round | src/renderer/components/PaymentMethodDialog.tsx:333 | `Math.round` is an integer within half of its argument, with halves rounded up. |
| PayFrequency.FrequencyOf | src/main/ipc/income.ts:6-28 | A stored frequency text is unlisted exactly when it is none of the seven schema names. |
| PayFrequency.FrequencyOfNameOf | src/main/ipc/income.ts:6-28 | Classifying a frequency's name gives the frequency back. |
| PayFrequency.PaychecksPerYear | src/main/ipc/income.ts:18-28 | Paychecks per year are a positive integer of at most 52, and 12 for any unscheduled frequency, so every division by them is defined. |
| PayFrequency.PaychecksPerMonth | src/main/ipc/income.ts:6-16 | Paychecks per month are positive, and 1 for any unscheduled frequency. |
| PayFrequency.MonthTableApproximatesYearTable | src/main/ipc/income.ts:6-28 | Twelve times the per-month figure is within 1% of the per-year figure. It is exact only for semimonthly, monthly and the defaults. |
| PayFrequency.PaycheckTables | src/main/ipc/income.ts:6-28 | Both tables by stored name: 52/4.33, 26/2.17, 24/2, 12/1, 4/0.33 and 1/0.083. `none`, unknown and missing give 12/1. |
| NetPay.ItemKindOf | src/renderer/components/IncomeDialog.tsx:42 | An item type is unlisted exactly when it is neither credit nor deduction. |
| NetPay.ItemFormatOf | src/main/ipc/income.ts:39 | The format is percent exactly when the text is `percent`, and unlisted exactly when it is neither `percent` nor `amount`. |
| NetPay.ItemFrequencyOf | src/main/ipc/income.ts:43-55 | An item frequency is unlisted exactly when it is not per_paycheck, monthly or annually. |
| NetPay.BaseAmount | src/main/ipc/income.ts:32-34 | The gross paycheck times paychecks per year is the annual amount, with a missing amount counting as 0. |
| NetPay.PaymentAmount | src/main/ipc/income.ts:30-59 | With no items, net pay is exactly the annual amount over paychecks per year. |
| NetPay.NetPayAtMostGross | src/main/ipc/income.ts:30-59 | With a non-negative amount and non-negative item values, net pay never exceeds the gross paycheck. |
| NetPay.TotalDeductionsNonNegative | src/main/ipc/income.ts:36-56 | Non-negative items on a non-negative base total at least 0. |
| NetPay.UnlistedItemsTakeNothing | src/main/ipc/income.ts:53-54 | Items with an unlisted frequency add nothing. |
| NetPay.TotalDeductionsAppend | src/main/ipc/income.ts:38-56 | The total over a concatenated list is the sum of the two totals. |
| NetPay.SingleItemTotal | src/main/ipc/income.ts:38-56 | A one-item list totals that item's contribution. |
| NetPay.TotalDeductionsPermutation | src/main/ipc/income.ts:38-56 | Any permutation of the items gives the same total, so their order never matters. |
| NetPay.TotalDeductionsRemove | src/main/ipc/income.ts:38-56 | Taking one item out removes exactly its contribution from the total. |
| NetPay.KindNeverMatters | src/main/ipc/income.ts:38-56 | Lists that differ only in item types give the same net pay. |
| NetPay.SameTotalWhenOnlyKindsDiffer | src/main/ipc/income.ts:38-56 | Lists that differ only in item types give the same total. |
| NetPay.ContributionIgnoresKind | src/main/ipc/income.ts:39-55 | An item's type does not change its contribution. |
| NetPay.ContributionMatchesSource | src/main/ipc/income.ts:39-55 | The contribution equals the source's own formula: a percent of the base or a fixed value, divided by 1, by paychecks per month or by paychecks per year, depending on the item frequency. |
| NetPay.ContributionNonNegative | src/main/ipc/income.ts:39-55 | A non-negative item on a non-negative base contributes at least 0. |
| NetPay.CreditSubtractedLikeDeduction | src/main/ipc/income.ts:38-58 | A credit is subtracted exactly like the same deduction, not added. |
| NetPay.ScaledSum | src/main/ipc/income.ts:45-51 | Helper: a sum of parts that scale by k scales by k. |
| NetPay.ScaledDifference | src/main/ipc/income.ts:58 | Helper: a difference of parts that scale by k scales by k. |
| NetPay.PercentContributionScales | src/main/ipc/income.ts:39-41 | A percent item's contribution scales with the base. |
| NetPay.PercentTotalScales | src/main/ipc/income.ts:38-56 | With only percent items, the total scales with the base. |
| NetPay.BaseAmountScales | src/main/ipc/income.ts:32-34 | Scaling the annual amount scales the gross paycheck. |
| NetPay.PercentOnlyIsLinear | src/main/ipc/income.ts:32-58 | With only percent items, scaling the annual amount by k scales net pay by k. |
| NetPay.PercentScenario | src/main/ipc/income.ts:30-59 | 120000 a year, monthly, minus 20% per paycheck nets 8000. |
| NetPay.AnnualFixedScenario | src/main/ipc/income.ts:50-51 | 120000 a year, monthly, minus a fixed 1200 a year nets 9900. |
| NetPay.NetPayCanBeNegative | src/main/ipc/income.ts:58 | There is no floor at zero: a large fixed deduction makes net pay negative. |
| Schedule.NextPaymentDate | src/main/ipc/income.ts:61-82 | An unscheduled frequency returns the start date unchanged. A scheduled one moves strictly later whenever the month step does. |
| Schedule.StepOf | src/main/ipc/income.ts:66-81 | A frequency has no step exactly when it is unscheduled. |
| Schedule.AdvanceTakesStep | src/main/ipc/income.ts:61-82 | The advance applies exactly the frequency's step to the stored date, or to now when none is stored: 7, 14 or 15 days, or 1, 3 or 12 months. |
| Schedule.StepMatchesYearTable | src/main/ipc/income.ts:18-28 | Month steps times paychecks per year make exactly 12 months. Day steps make 360 to 364 days. |
| Schedule.AdvanceIgnoresNowWhenSet | src/main/ipc/income.ts:62-64 | With a stored date, now has no influence on the advance. |
| Schedule.DayStepsIgnoreCalendar | src/main/ipc/income.ts:67-72 | Weekly, biweekly and semimonthly never consult the calendar month step. |
| Schedule.UnscheduledStaysDue | src/main/ipc/income.ts:79-80 | A due source with an unscheduled frequency is still due after its advance. |
| Schedule.OneStepCanStayDue | src/main/ipc/income.ts:67-68 | One advance is one step: a weekly source more than a week behind stays due. |
| MonthlyTotals.PeriodOf | src/main/ipc/income.ts:86-88 | The keys are the decimal year and the 1-based month with no leading zero (one or two digits), and they decode back to the clock's year and month. |
| MonthlyTotals.PeriodOfInjective | src/main/ipc/income.ts:86-88 | Different calendar months write under different keys. |
| MonthlyTotals.Put | src/main/ipc/income.ts:92-96 | The written entry reads back. Every other (period, name) entry is unchanged. The top-level keys become the old ones plus the written year. |
| MonthlyTotals.PutPut | src/main/ipc/income.ts:92-96 | Of two writes to one entry, only the second survives. |
| MonthlyTotals.PutCurrent | src/main/ipc/income.ts:92-96 | Writing back the stored value changes nothing. |
| MonthlyTotals.Accumulate | src/main/ipc/income.ts:92-96 | The entry becomes its old value (or 0) plus the amount. Every other entry is unchanged. |
| MonthlyTotals.AccumulateTwice | src/main/ipc/income.ts:95-96 | Accumulating a and then b equals accumulating a + b. |
| MonthlyTotals.AccumulateZero | src/main/ipc/income.ts:95-96 | Booking 0 into an existing entry changes nothing. |
| MonthlyTotals.SetAbsolute | src/renderer/pages/Income.tsx:83-90 | The adjusted entry reads as the amount, whatever it held. Every other entry is unchanged. |
| MonthlyTotals.SetAbsoluteIdempotent | src/renderer/pages/Income.tsx:90 | The same adjust twice equals once, and a later adjust overrides an earlier one. |
| MonthlyTotals.AdjustThenBook | src/renderer/pages/Income.tsx:90 | An adjust overwrites: a later booking adds to the adjusted amount, not to the previous value. |
| MonthlyTotals.BookInto | src/main/ipc/income.ts:90-102 | A parsed column gains the amount in the current entry, and every other (period, name) entry is unchanged. A column that does not parse stays unparsed and unchanged. |
| MonthlyTotals.CurrentMonthTotal | src/renderer/pages/Income.tsx:60-69 | The read is the stored value of the current entry, or 0 for a missing year, month or name or for text that does not parse. |
| MonthlyTotals.BookingIsRead | src/renderer/pages/Income.tsx:65 | A booking raises the page's read of that month by the amount. |
| MonthlyTotals.BookingStaysInItsMonth | src/main/ipc/income.ts:86-96 | A booking leaves every other month's read unchanged. |
| IncomeForm.IncomeKindOf | src/renderer/components/IncomeDialog.tsx:35 | An income type is unlisted exactly when it is none of employment, other_recurring or simple. |
| IncomeForm.ItemIssues | src/renderer/components/IncomeDialog.tsx:40-46 | Every issue about an item points at that item's position. |
| IncomeForm.ItemsIssues | src/renderer/components/IncomeDialog.tsx:40-46 | Every item issue points inside the list. |
| IncomeForm.ItemIssuesEmpty | src/renderer/components/IncomeDialog.tsx:41-45 | An item has no issue exactly when it satisfies the item schema. |
| IncomeForm.ItemsIssuesEmpty | src/renderer/components/IncomeDialog.tsx:40-46 | A list has no issue exactly when every item is valid. |
| IncomeForm.NoIssuesIffValid | src/renderer/components/IncomeDialog.tsx:33-47 | The schema reports no issue exactly when the form is valid. |
| IncomeForm.ItemIssuesPointAtInvalidItems | src/renderer/components/IncomeDialog.tsx:40-46 | Every reported item issue names an item that fails the schema. |
| IncomeForm.DefaultNeedsOnlyAName | src/renderer/components/IncomeDialog.tsx:59-67 | The defaults fail only for the missing name; naming them makes them valid. |
| IncomeForm.AddDeductionItem | src/renderer/components/IncomeDialog.tsx:275-286 | Add Item appends exactly one blank item and leaves the earlier items and every other field unchanged. |
| IncomeForm.AddedItemNeedsAName | src/renderer/components/IncomeDialog.tsx:275-286 | After Add Item the form is invalid. Its issues are the old ones plus a missing name at the new position, and naming the item fixes it. |
| IncomeForm.ItemsIssuesAppend | src/renderer/components/IncomeDialog.tsx:40-46 | The issues of a longer list are the old issues followed by the new item's. |
| IncomeForm.IssuesOfLongerList | src/renderer/components/IncomeDialog.tsx:40-46 | Helper: a form with one more item has its old issues followed by the new item's issues. |
| IncomeForm.RemoveDeductionItem | src/renderer/components/IncomeDialog.tsx:392-398 | Remove drops exactly the item at the index and keeps the others in order. |
| IncomeForm.RemoveKeepsValid | src/renderer/components/IncomeDialog.tsx:392-398 | Removing an item never makes a valid form invalid. |
| IncomeForm.RemoveUndoesAdd | src/renderer/components/IncomeDialog.tsx:275-286 | Removing the just-added item restores the list. |
| IncomeStore.DeductionsOf | src/main/ipc/income.ts:126 | A source's items come from the deduction table. |
| IncomeStore.DeductionsIn | src/main/ipc/income.ts:126 | A source's items come from the given rows. |
| IncomeStore.DeductionsInAppend | src/main/ipc/income.ts:160-169 | Inserting rows at the end appends their items after the existing ones. |
| IncomeStore.RowsFor | src/main/ipc/income.ts:160-169 | One row per submitted item, in order, each under the new source's id. |
| IncomeStore.DeductionsInRowsFor | src/main/ipc/income.ts:160-169 | A source's inserted rows carry exactly its items and no one else's. |
| IncomeStore.BookedAmountIsGross | src/main/ipc/income.ts:172-174 | A record loaded with `SELECT *` books the gross paycheck: amount over paychecks per year. |
| IncomeStore.BookPayment | src/main/ipc/income.ts:84-103 | Only the given row's totals change, by one accumulate. Nothing changes when the row is missing or its totals do not parse. |
| IncomeStore.SetNextPaymentDate | src/main/ipc/income.ts:105-108 | Only the given row's next payment date changes. |
| IncomeStore.WriteMonthlyTotals | src/main/ipc/income.ts:214-217 | Only the given row's totals are replaced. |
| IncomeStore.CreateIncome | src/main/ipc/income.ts:132-179 | The new row gets the next id, the submitted name, type, frequency, amount and pay date, and the nudged first date. Its totals are the empty map plus exactly one booking of the gross paycheck, under the current month and the source's name. Its items are appended. Every other row and source is untouched. |
| IncomeStore.CreateStoresSubmittedItems | src/main/ipc/income.ts:154-170 | When no deduction row points past the handed-out ids, the new source has exactly the submitted items. |
| IncomeStore.NoRowsNoItems | src/main/ipc/income.ts:199-200 | A source with no rows has no items. |
| IncomeStore.WithoutSource | src/main/ipc/income.ts:199-200 | Deleting a source's rows leaves none of them. |
| IncomeStore.WithoutSourceKeepsOthers | src/main/ipc/income.ts:199-200 | Deleting one source's rows leaves every other source's items as they were. |
| IncomeStore.UpdateIncome | src/main/ipc/income.ts:181-212 | The row keeps its id; name, type, frequency, amount, pay date and next payment date are overwritten, and the totals are never touched. The source's items become exactly the submitted list; other sources keep theirs. |
| IncomeStore.UpdateIdempotent | src/main/ipc/income.ts:181-212 | Submitting the same edit twice leaves what submitting it once left. |
| IncomeStore.RenameStartsNewEntry | src/main/ipc/income.ts:181-196 | After a rename, the page reads the new name's entry, so amounts under the old name stop showing. |
| IncomeStore.Settle | src/main/ipc/income.ts:234-244 | A due row changes only in its totals (one booking) and its date (one advance). |
| IncomeStore.SettleStored | src/main/ipc/income.ts:234-244 | Settling one stored row changes only that row, and changes it exactly as `Settle` does. Ids, the deduction table and the id counter stay as they were. |
| IncomeStore.SettleNext | src/main/ipc/income.ts:234-244 | Helper for the sweep loop: settling the next due row extends the settled prefix by that row's id. |
| IncomeStore.SweptRowsAreTheDueRows | src/main/ipc/income.ts:224-245 | Helper: once every due row is settled and nothing else has changed, the table equals the order-free reference. |
| IncomeStore.ProcessDuePayments | src/main/ipc/income.ts:224-245 | Processing the due rows in query order equals the order-free reference, where every due row is settled once and the rest are unchanged. |
| IncomeStore.SweepLeavesOthers | src/main/ipc/income.ts:226-232 | Rows that are not due, and the deduction table, come out of the sweep unchanged. |
| IncomeStore.SweepSettlesDueOnce | src/main/ipc/income.ts:234-244 | A due row gets exactly one accumulate of its gross paycheck and exactly one step of its date. |
| IncomeStore.UnscheduledBooksEverySweep | src/main/ipc/income.ts:79-80 | A due row with `none`, an unknown or no frequency is still due afterwards, so every sweep books it again. |
| IncomeStore.UnparsedTotalsStillAdvance | src/main/ipc/income.ts:239-243 | A due row whose totals do not parse books nothing, but its date still advances. |
| IncomeStore.SweepKeepsValid | src/main/ipc/income.ts:224-245 | The sweep keeps the set of ids and the table's validity. |
| IncomePage.Find | src/renderer/pages/Income.tsx:74 | The found source is the first loaded source with the selected id: every source before it has another id. Nothing found means no loaded source has that id. |
| IncomePage.AdjustMonthlyTotal | src/renderer/pages/Income.tsx:71-101 | The adjust writes nothing when no source is selected or the selected id is not among the loaded sources. |
| IncomePage.AdjustIsShown | src/renderer/pages/Income.tsx:65 | After an adjust from an up-to-date list, the page reads the adjusted amount for that source. |
| IncomePage.AdjustTouchesOneEntry | src/renderer/pages/Income.tsx:83-95 | An adjust changes only the selected source's current entry. Every other entry and every other source is unchanged. |
| IncomePage.StaleAdjustDropsLaterBooking | src/renderer/pages/Income.tsx:81-95 | The adjust writes back the page's loaded copy, so a booking made in another month after loading is lost. |
| IncomePage.SubmitAdjust | src/renderer/components/MonthlyTotalDialog.tsx:22-24 | A negative amount is rejected and writes nothing; any other amount is adjusted. |
| IncomePage.SubmittedTotalNonNegative | src/renderer/components/MonthlyTotalDialog.tsx:22-24 | A submitted adjust never makes the shown total negative. |
| PaymentMethodForm.DefaultNeedsOnlyAName | src/renderer/components/PaymentMethodDialog.tsx:59-71 | The defaults fail only for the missing name. |
| PaymentMethodForm.BlankReward | src/renderer/components/PaymentMethodDialog.tsx:279-285 | The added reward is a valid points reward of amount 0. |
| PaymentMethodForm.AddReward | src/renderer/components/PaymentMethodDialog.tsx:275-286 | Add Reward appends exactly the blank reward and leaves the earlier rewards and every other field unchanged. |
| PaymentMethodForm.RemoveReward | src/renderer/components/PaymentMethodDialog.tsx:404-407 | Remove drops exactly the reward at the index. An index outside the list leaves it unchanged. |
| PaymentMethodForm.AddRemoveKeepValid | src/renderer/components/PaymentMethodDialog.tsx:32-48 | Add Reward and Remove keep a valid form valid. |
| PaymentMethodForm.RemoveUndoesAdd | src/renderer/components/PaymentMethodDialog.tsx:275-286 | Removing the just-added reward restores the list. |
| PaymentMethodForm.EnteredAmount | src/renderer/components/PaymentMethodDialog.tsx:331-334 | A points amount is stored as an integer within half of the entry; any other type stores the entry itself. |
| PaymentMethodForm.EnteredAmountStable | src/renderer/components/PaymentMethodDialog.tsx:331-334 | Re-entering a stored amount keeps it, and a non-negative entry stays non-negative. |
| PaymentMethodForm.NormaliseReward | src/renderer/components/PaymentMethodDialog.tsx:111-115 | The reward is owned by the saved method (id, or 0 for a new one) and keeps a frequency only when it is a credit. Every other field passes through. |
| PaymentMethodForm.NormaliseRewards | src/renderer/components/PaymentMethodDialog.tsx:111-115 | Normalising keeps the count and the order of the rewards. |
| PaymentMethodForm.SubmittedData | src/renderer/components/PaymentMethodDialog.tsx:109-116 | A crypto wallet is sent with no rewards; a card with its rewards normalised. Every other field passes through. |
| PaymentMethodForm.SubmitIdempotent | src/renderer/components/PaymentMethodDialog.tsx:109-116 | Normalising what was sent changes nothing. |
| PaymentMethodForm.SubmitKeepsValid | src/renderer/components/PaymentMethodDialog.tsx:109-116 | Normalising keeps a valid form valid. |
| PaymentMethodForm.SubmitAfterAdd | src/renderer/components/PaymentMethodDialog.tsx:275-286 | For a card, sending after Add Reward sends the earlier rewards plus the blank one. |
| PaymentMethodForm.SubmitAfterRemove | src/renderer/components/PaymentMethodDialog.tsx:404-407 | For a card, sending after Remove sends the earlier rewards without the removed one. |
| VehicleForm.DefaultNeedsOnlyAName | src/renderer/components/VehicleDialog.tsx:53-61 | The defaults fail only for the missing name. |
| VehicleForm.NeedsPaymentInfo | src/renderer/components/VehicleDialog.tsx:88-89 | Payment fields are needed exactly for a lease or a loan. |
| VehicleForm.SubmittedData | src/renderer/components/VehicleDialog.tsx:91-99 | Name, type, description and value pass through for every listed type. Payment day, remaining payments and payment amount are kept for a lease or loan and cleared otherwise. |
| VehicleForm.SubmitIdempotentAndValid | src/renderer/components/VehicleDialog.tsx:91-99 | Normalising twice equals once, and it keeps a valid form valid. |
| VehicleForm.OwnSendsNoPayments | src/renderer/components/VehicleDialog.tsx:95-98 | An owned vehicle is sent as entered but with no payment information. |
| VehicleForm.IntEntry | src/renderer/components/VehicleDialog.tsx:189 | The day and count inputs never store 0: a 0 or NaN entry becomes 1, and any other entry is kept. |
| VehicleForm.RealEntry | src/renderer/components/VehicleDialog.tsx:166 | The value and amount inputs keep a number and turn NaN into 0. |
| VehicleForm.NoZeroRemainingPayments | src/renderer/components/VehicleDialog.tsx:208 | Entering 0 remaining payments stores 1, and a non-negative entry stores at least 1. |
| VehicleForm.IntEntryKeepsValid | src/renderer/components/VehicleDialog.tsx:189 | An entry of at least 1 is stored unchanged. |
| Ordinal.EnglishSuffix | src/renderer/pages/spending/PaymentMethods.tsx:16-30 | Reference rule: the English suffix is always one of st, nd, rd or th. |
| Ordinal.LastDigitOfLastTwo | src/renderer/pages/spending/PaymentMethods.tsx:20 | The last digit of the last two digits is the last digit. |
| PaymentMethodsPage.OrdinalSuffix | src/renderer/pages/spending/PaymentMethods.tsx:16-30 | The suffix is always one of st, nd, rd or th, and is th for 11 to 13. |
| PaymentMethodsPage.SuffixByLastDigit | src/renderer/pages/spending/PaymentMethods.tsx:20-29 | Outside 11 to 13, numbers with the same last digit get the same suffix. |
| PaymentMethodsPage.MatchesEnglish | src/renderer/pages/spending/PaymentMethods.tsx:16-30 | The suffix agrees with the English rule exactly when the number is not 111-113, 211-213 and so on. It always agrees on days 1-31. |
| PaymentMethodsPage.NegativeDaysTakeTh | src/renderer/pages/spending/PaymentMethods.tsx:20-28 | Under JavaScript's `%`, every negative day takes th. |
| PaymentMethodsPage.StatementDateCell | src/renderer/pages/spending/PaymentMethods.tsx:91-98 | The day and its suffix are shown exactly when the statement date is truthy. |
| PaymentMethodsPage.AnnualFeeCell | src/renderer/pages/spending/PaymentMethods.tsx:101-103 | The fee is shown exactly for a credit method with a non-null fee, including 0; otherwise '-'. |
| PaymentMethodsPage.CryptoRow | src/renderer/pages/spending/PaymentMethods.tsx:101-106 | A crypto row shows no fee but offers Edit and Delete; the cash row offers neither. |
| VehiclesPage.ValueCell | src/renderer/pages/assets/Vehicles.tsx:88 | The value is shown exactly when it is present and non-zero. |
| VehiclesPage.PaymentCell | src/renderer/pages/assets/Vehicles.tsx:91-93 | Amount, day and suffix are shown exactly when both amount and day are truthy. |
| VehiclesPage.RemainingCell | src/renderer/pages/assets/Vehicles.tsx:96 | The count is shown exactly when it is not null, so 0 is shown. |
| VehiclesPage.ZeroReadsDifferently | src/renderer/pages/assets/Vehicles.tsx:88-96 | A value of 0 shows '-', while 0 remaining payments shows 0. |
| Currency.CurrencyFormatOf | src/renderer/utils/currency.tsx:6-21 | A format text is unknown exactly when it is not EUR, GBP, NMS or USD. |
| Currency.Symbol | src/renderer/utils/currency.tsx:7-20 | The symbol is € exactly for EUR and £ exactly for GBP; every other format gets $. |
| Currency.FormatCurrency | src/renderer/utils/currency.tsx:4-22 | NMS, and only NMS, renders markup. Every other format renders its symbol followed by the amount's two-decimal text. The digits are the same text for every format. |
| Currency.UnknownFormatsAreDollars | src/renderer/utils/currency.tsx:18-21 | USD and every unknown format render alike as '$' plus the digits, so the function is total. |
| Currency.SameRenderingIffSameSymbol | src/renderer/utils/currency.tsx:6-21 | Two formats render an amount alike exactly when they are the same format or both are dollar formats. |

## Left out

- SQL, the `better-sqlite3` handle and table creation. The table is a map from id to record plus a sequence of deduction rows in insertion order.
- The `income` and `income_deductions` table schemas are not part of this model. Row ids are modelled as the next unused integer.
- Handlers with no logic beyond a query: `income:getAll` and `income:delete`. For a source with no deduction rows, the `getAll` join yields a one-element array holding an all-null item rather than an empty list. The order of the joined items is not fixed by an `ORDER BY`. `IncomeStore.DeductionsOf` is the deduction-table rows of a source in insertion order, not that join's output.
- Electron IPC registration, preload bridging, React rendering, hooks and the surrounding pages and dialogs.
- The calendar of `date-fns`. `addMonths` is a parameter, assumed only where stated to move dates forward.
- Local time versus UTC, daylight saving, and ISO-string comparison. "Due" is the integer order of instants.
- The Clock supplies the local year and month, and the clock is held fixed for the whole sweep.
- The create flow's pay-date nudge (a `setMonth` on a JavaScript date) is the `firstPaymentDate` parameter of `IncomeStore.CreateIncome`.
- Floating point. Amounts are exact reals: the table constants are exact, and `toFixed(2)`, `parseFloat` and `parseInt` stay abstract. A parse result of `NaN` is `None`, and `NaN` amounts elsewhere are not modelled.
- JSON text. The parsed totals are modelled directly, and text that does not parse is `None`. JSON that parses to something other than an object of objects is not modelled.
- Logging through `console.error`.
- Inherited object properties. A parsed totals column is an ordinary JavaScript object, so a source name such as `constructor`, `toString` or `valueOf` finds an `Object.prototype` function at src/main/ipc/income.ts:95. That value is truthy, so `currentTotal + amount` at :96 concatenates strings, and the page's read at src/renderer/pages/Income.tsx:65 is then not a number. For the name `__proto__` the write at :96 is dropped and nothing is booked. `MonthlyTotals.Get`, `MonthlyTotals.Accumulate` and `MonthlyTotals.BookInto` treat every name as a plain key and always book a number.
- IncomeStore.ProcessDuePayments: stored dates are assumed to parse. Instants are integers, so there is no Invalid Date. In the code, `income:update` stores `next_payment_date` unchecked (src/main/ipc/income.ts:188-196). A due row whose date text does not parse (such as `2024-13-01`) is booked at :239, and then `toISOString` at :107 (called from :243) throws out of the `forEach`. That row's date never advances and the later due rows are skipped, so every later sweep books that row again. The model instead settles every due row, and `ProcessDuePayments == SweepReference` holds only under this assumption.
- IncomeStore.CreateIncome: a `pay_date` that does not parse makes the code throw at src/main/ipc/income.ts:151 before anything is inserted. The model takes an instant, so that error path is not modelled.
- The form reset from an existing payment method or vehicle, and the reward and category selects' option lists.
- `IncomeStore.UpdateIncome` on an id with no row updates no row, but still writes the submitted items as deduction rows under that id, as the code does.
- IncomeStore.ProcessDuePayments: the due query's result is an input that must list each due row exactly once, as stored. The SQL that produces it is not modelled.
- NetPay.PaymentAmount: its contract states only the empty-list case. The general formula is stated by the lemmas around it (`NetPayAtMostGross`, `TotalDeductionsRemove`, `PercentOnlyIsLinear`, the scenarios), not as one closed form.
