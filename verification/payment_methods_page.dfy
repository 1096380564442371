/** The Payment Methods page (src/renderer/pages/spending/PaymentMethods.tsx):
    the day suffix of the statement date, and what each row's cells show. */
module PaymentMethodsPage {
  import opened Wrappers
  import opened JsNumber
  import opened Ordinal

  /** `getOrdinalSuffix(day)`: "th" for 11 to 13, otherwise chosen by
      JavaScript's `day % 10`. */
  function OrdinalSuffix(day: int): (s: string)
    ensures IsSuffix(s)
    ensures 11 <= day <= 13 ==> s == "th"
  {
    if 11 <= day <= 13 then "th"
    else
      match Rem(day, 10)
      case 1 => "st"
      case 2 => "nd"
      case 3 => "rd"
      case _ => "th"
  }

  /** Outside 11 to 13 the suffix is decided by the last digit alone. */
  lemma SuffixByLastDigit(a: int, b: int)
    requires !(11 <= a <= 13) && !(11 <= b <= 13)
    requires a >= 0 && b >= 0 && a % 10 == b % 10
    ensures OrdinalSuffix(a) == OrdinalSuffix(b)
  {
  }

  /** The suffix agrees with the English rule exactly when the number is not
      one of 111-113, 211-213, …: the code tests 11 to 13 only, not the last
      two digits. On the days of a month the two always agree. */
  lemma MatchesEnglish(n: nat)
    ensures OrdinalSuffix(n) == EnglishSuffix(n) <==> !(n >= 100 && 11 <= n % 100 <= 13)
    ensures 1 <= n <= 31 ==> OrdinalSuffix(n) == EnglishSuffix(n)
  {
    LastDigitOfLastTwo(n);
  }

  /** A negative day has a non-positive JavaScript remainder and takes "th"
      (Dafny's `%` would have given "st" for -9). */
  lemma NegativeDaysTakeTh(day: int)
    requires day < 0
    ensures OrdinalSuffix(day) == "th"
  {
  }

  /** The payment method types a row can carry; the stored cash method is
      type `cash`. */
  datatype MethodKind = Cash | Credit | Crypto | OtherKind

  /** The two ways a cell can read. */
  datatype Cell<T> = Dash | Shown(value: T)

  /** The Statement Date cell: a truthy day is shown with its suffix. */
  function StatementDateCell(statementDate: Option<int>): (c: Cell<(int, string)>)
    ensures c.Shown? <==> TruthyInt(statementDate)
    ensures c.Shown? ==> c.value.0 == statementDate.value && IsSuffix(c.value.1)
  {
    if TruthyInt(statementDate) then Shown((statementDate.value, OrdinalSuffix(statementDate.value))) else Dash
  }

  /** The Annual Fee cell: shown only for a credit method whose fee is not
      null; a fee of 0 is shown. */
  function AnnualFeeCell(kind: MethodKind, annualFee: Option<real>): (c: Cell<real>)
    ensures c.Shown? <==> kind == Credit && annualFee.Some?
    ensures c.Shown? ==> c.value == annualFee.value
  {
    if kind == Credit && annualFee.Some? then Shown(annualFee.value) else Dash
  }

  /** Edit and Delete are offered for every method but the cash one. */
  predicate OffersActions(kind: MethodKind) {
    kind != Cash
  }

  /** A crypto method never shows a fee, whatever is stored, but can be
      edited and deleted. */
  lemma CryptoRow(annualFee: Option<real>)
    ensures AnnualFeeCell(Crypto, annualFee) == Dash
    ensures OffersActions(Crypto) && !OffersActions(Cash)
  {
  }
}
