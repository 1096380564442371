/** English ordinal suffixes, as a reference for the two copies of
    `getOrdinalSuffix` in the pages. */
module Ordinal {
  /** The four suffixes the pages ever print. */
  predicate IsSuffix(s: string) {
    s == "st" || s == "nd" || s == "rd" || s == "th"
  }

  /** The English rule for a non-negative number: "th" when the last two
      digits are 11, 12 or 13, otherwise by the last digit. */
  function EnglishSuffix(n: nat): (s: string)
    ensures IsSuffix(s)
  {
    if 11 <= n % 100 <= 13 then "th"
    else if n % 10 == 1 then "st"
    else if n % 10 == 2 then "nd"
    else if n % 10 == 3 then "rd"
    else "th"
  }

  /** The last digit of a number is the last digit of its last two digits. */
  lemma LastDigitOfLastTwo(n: nat)
    ensures (n % 100) % 10 == n % 10
  {
    var q := n / 100;
    var r := n % 100;
    assert n == 100 * q + r;
    assert n == 10 * (10 * q + r / 10) + r % 10;
  }
}
