/** The Vehicles page (src/renderer/pages/assets/Vehicles.tsx): what each
    row's Value, Payment and Remaining cells show. The page's own copy of
    `getOrdinalSuffix` has the same text as the Payment Methods page's, so
    both are `PaymentMethodsPage.OrdinalSuffix`. `toFixed(2)` is left
    abstract: a shown amount is the number itself. */
module VehiclesPage {
  import opened Wrappers
  import opened JsNumber
  import PaymentMethodsPage

  /** The numeric columns of a stored vehicle; a missing column is null. */
  datatype VehicleRow = VehicleRow(
    name: string,
    value: Option<real>,
    paymentDate: Option<int>,
    remainingPayments: Option<int>,
    paymentAmount: Option<real>)

  datatype Cell<T> = Dash | Shown(value: T)

  /** The Value cell: a truthy value is shown, so a value of 0 shows '-'. */
  function ValueCell(v: VehicleRow): (c: Cell<real>)
    ensures c.Shown? <==> v.value.Some? && v.value.value != 0.0
    ensures c.Shown? ==> c.value == v.value.value
  {
    if Truthy(v.value) then Shown(v.value.value) else Dash
  }

  /** The Payment cell: amount and day with its suffix, only when both the
      amount and the day are truthy. */
  function PaymentCell(v: VehicleRow): (c: Cell<(real, int, string)>)
    ensures c.Shown? <==> Truthy(v.paymentAmount) && TruthyInt(v.paymentDate)
    ensures c.Shown? ==> c.value.0 == v.paymentAmount.value && c.value.1 == v.paymentDate.value
    ensures c.Shown? ==> c.value.2 == PaymentMethodsPage.OrdinalSuffix(v.paymentDate.value)
  {
    if Truthy(v.paymentAmount) && TruthyInt(v.paymentDate)
    then Shown((v.paymentAmount.value, v.paymentDate.value, PaymentMethodsPage.OrdinalSuffix(v.paymentDate.value)))
    else Dash
  }

  /** The Remaining cell: '-' only for null, so 0 remaining payments shows 0. */
  function RemainingCell(v: VehicleRow): (c: Cell<int>)
    ensures c.Shown? <==> v.remainingPayments.Some?
    ensures c.Shown? ==> c.value == v.remainingPayments.value
  {
    match v.remainingPayments
    case None => Dash
    case Some(n) => Shown(n)
  }

  /** The cells treat 0 differently: a value of 0 shows '-', while 0
      remaining payments is shown. */
  lemma ZeroReadsDifferently(name: string)
    ensures var v := VehicleRow(name, Some(0.0), None, Some(0), None);
            ValueCell(v) == Dash && RemainingCell(v) == Shown(0)
  {
  }
}
