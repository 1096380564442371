/** The vehicle dialog (src/renderer/components/VehicleDialog.tsx): its
    validation schema, its defaults, the fallbacks of its number inputs, and
    the clearing of payment fields on submit. A parse result of `None`
    stands for `NaN`. */
module VehicleForm {
  import opened Wrappers
  import opened JsNumber

  datatype Ownership = Own | Lease | Loan | UnlistedOwnership

  /** The values the dialog submits. */
  datatype VehicleFormData = VehicleFormData(
    name: string,
    ownership: Ownership,
    value: Option<real>,
    paymentDate: Option<int>,
    remainingPayments: Option<int>,
    paymentAmount: Option<real>,
    description: Option<string>)

  /** `formSchema`: a name, a listed ownership type, and optional numbers:
      a non-negative value, a payment day 1 to 31, a non-negative count of
      remaining payments and a non-negative payment amount. */
  predicate ValidVehicleForm(data: VehicleFormData) {
    && |data.name| >= 1
    && data.ownership != UnlistedOwnership
    && (data.value.None? || data.value.value >= 0.0)
    && (data.paymentDate.None? || 1 <= data.paymentDate.value <= 31)
    && (data.remainingPayments.None? || data.remainingPayments.value >= 0)
    && (data.paymentAmount.None? || data.paymentAmount.value >= 0.0)
  }

  /** `defaultValues` for a new vehicle. */
  const DefaultVehicleForm: VehicleFormData :=
    VehicleFormData("", Own, Some(0.0), Some(1), Some(0), Some(0.0), Some(""))

  /** The defaults fail only for the missing name. */
  lemma DefaultNeedsOnlyAName(name: string)
    ensures !ValidVehicleForm(DefaultVehicleForm)
    ensures ValidVehicleForm(DefaultVehicleForm.(name := name)) <==> |name| >= 1
  {
  }

  /** `needsPaymentInfo`: the payment fields are shown for a lease or a loan. */
  function NeedsPaymentInfo(ownership: Ownership): (needs: bool)
    ensures needs <==> ownership in {Lease, Loan}
  {
    ownership == Lease || ownership == Loan
  }

  /** `handleSubmit`'s `formattedData`: the value is kept for every listed
      ownership type; the payment day, the remaining payments and the payment
      amount are kept only when the payment fields are shown. */
  function SubmittedData(data: VehicleFormData): (r: VehicleFormData)
    ensures r.name == data.name && r.ownership == data.ownership && r.description == data.description
    ensures r.value == (if data.ownership != UnlistedOwnership then data.value else None)
    ensures NeedsPaymentInfo(data.ownership) ==>
              r.paymentDate == data.paymentDate && r.remainingPayments == data.remainingPayments
              && r.paymentAmount == data.paymentAmount
    ensures !NeedsPaymentInfo(data.ownership) ==>
              r.paymentDate.None? && r.remainingPayments.None? && r.paymentAmount.None?
  {
    var needs := NeedsPaymentInfo(data.ownership);
    data.(value := if needs || data.ownership == Own then data.value else None,
          paymentDate := if needs then data.paymentDate else None,
          remainingPayments := if needs then data.remainingPayments else None,
          paymentAmount := if needs then data.paymentAmount else None)
  }

  /** Submitting is idempotent and never breaks the schema. */
  lemma SubmitIdempotentAndValid(data: VehicleFormData)
    ensures SubmittedData(SubmittedData(data)) == SubmittedData(data)
    ensures ValidVehicleForm(data) ==> ValidVehicleForm(SubmittedData(data))
  {
  }

  /** An owned vehicle is sent with no payment information, whatever the
      hidden fields held, and with its value. */
  lemma OwnSendsNoPayments(data: VehicleFormData)
    requires data.ownership == Own
    ensures var sent := SubmittedData(data);
            sent == data.(paymentDate := None, remainingPayments := None, paymentAmount := None)
  {
  }

  /** The payment day and remaining payments inputs: `parseInt(...) || 1`,
      so an entry that parses to 0 or to `NaN` becomes 1. */
  function IntEntry(parsed: Option<int>): (n: int)
    ensures n != 0
    ensures TruthyInt(parsed) ==> n == parsed.value
    ensures !TruthyInt(parsed) ==> n == 1
  {
    if TruthyInt(parsed) then parsed.value else 1
  }

  /** The value and payment amount inputs: `parseFloat(...) || 0`, so an
      entry that parses to `NaN` becomes 0. */
  function RealEntry(parsed: Option<real>): (x: real)
    ensures parsed.Some? ==> x == parsed.value
    ensures parsed.None? ==> x == 0.0
  {
    if Truthy(parsed) then parsed.value else 0.0
  }

  /** The input cannot store 0 remaining payments: entering 0 stores 1, and
      a non-negative entry always stores at least 1. */
  lemma NoZeroRemainingPayments(parsed: Option<int>)
    ensures IntEntry(Some(0)) == 1
    ensures parsed.None? || parsed.value >= 0 ==> IntEntry(parsed) >= 1
  {
  }

  /** An entry inside the schema's bounds is kept as it is, so the input
      never turns a valid day or count into a different one. */
  lemma IntEntryKeepsValid(parsed: Option<int>)
    requires parsed.Some? && parsed.value >= 1
    ensures IntEntry(parsed) == parsed.value
  {
  }
}
