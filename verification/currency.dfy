/** `formatCurrency` (src/renderer/utils/currency.tsx): the two-decimal text
    of the amount behind the symbol of the chosen currency format. The text
    `toFixed(2)` produces is left abstract and passed in as a function. */
module Currency {
  /** The currency formats, classified; any other text is `OtherFormat`. */
  datatype CurrencyFormat = Eur | Gbp | Nms | Usd | OtherFormat

  function CurrencyFormatOf(text: string): (f: CurrencyFormat)
    ensures f == OtherFormat <==> text !in {"EUR", "GBP", "NMS", "USD"}
  {
    if text == "EUR" then Eur
    else if text == "GBP" then Gbp
    else if text == "NMS" then Nms
    else if text == "USD" then Usd
    else OtherFormat
  }

  /** What the function returns: a string, or for NMS the units icon next
      to the digits. */
  datatype Rendered = Text(text: string) | UnitsIcon(digits: string)

  /** The digits of a rendering, whichever form it takes. */
  function Digits(r: Rendered): string {
    match r
    case Text(s) => if |s| > 0 then s[1..] else s
    case UnitsIcon(d) => d
  }

  /** The symbol put in front of the digits by a text rendering. */
  function Symbol(f: CurrencyFormat): (c: char)
    requires f != Nms
    ensures c == '€' <==> f == Eur
    ensures c == '£' <==> f == Gbp
    ensures f != Eur && f != Gbp ==> c == '$'
  {
    match f
    case Eur => '€'
    case Gbp => '£'
    case _ => '$'
  }

  function FormatCurrency(amount: real, format: CurrencyFormat, toFixed2: real -> string): (r: Rendered)
    ensures r.UnitsIcon? <==> format == Nms
    ensures r.Text? ==> r.text == [Symbol(format)] + toFixed2(amount)
    ensures Digits(r) == toFixed2(amount)
  {
    var digits := toFixed2(amount);
    match format
    case Nms => UnitsIcon(digits)
    case Eur => Text(['€'] + digits)
    case Gbp => Text(['£'] + digits)
    case _ => Text(['$'] + digits)
  }

  /** USD and every unknown format render alike, with a dollar sign. */
  lemma UnknownFormatsAreDollars(amount: real, text: string, toFixed2: real -> string)
    requires CurrencyFormatOf(text) == OtherFormat
    ensures FormatCurrency(amount, CurrencyFormatOf(text), toFixed2) == FormatCurrency(amount, Usd, toFixed2)
    ensures FormatCurrency(amount, Usd, toFixed2) == Text(['$'] + toFixed2(amount))
  {
  }

  /** Two formats render an amount the same way exactly when both are
      dollar formats or they are the same format. */
  lemma SameRenderingIffSameSymbol(amount: real, f: CurrencyFormat, g: CurrencyFormat, toFixed2: real -> string)
    ensures FormatCurrency(amount, f, toFixed2) == FormatCurrency(amount, g, toFixed2)
            <==> f == g || (f in {Usd, OtherFormat} && g in {Usd, OtherFormat})
  {
    var r, s := FormatCurrency(amount, f, toFixed2), FormatCurrency(amount, g, toFixed2);
    if r == s && r.Text? {
      assert r.text[0] == Symbol(f) && s.text[0] == Symbol(g);
    }
  }
}
