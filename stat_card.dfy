/** The value shown on a statistics card: numbers of a million or more in
    millions ("M"), of a thousand or more in thousands ("K"), smaller numbers
    as they are, and anything that is not a number unchanged. The one-decimal
    rounding of `toFixed(1)` and the locale grouping of `toLocaleString` are
    not modelled: a scaled value is kept exact. */
module StatCard {

  /** What a card receives: a number, or a currency string produced from an
      amount by `formatCurrency` (whose text is not modelled). */
  datatype CardValue = Number(n: real) | Currency(amount: real)

  datatype Shown =
    | Millions(scaled: real)      // `(n / 1000000).toFixed(1) + 'M'`
    | Thousands(scaled: real)     // `(n / 1000).toFixed(1) + 'K'`
    | Plain(n: real)              // `n.toLocaleString(...)`
    | Unchanged(value: CardValue) // not a number: shown as given

  /** The suffix a shown value carries. */
  function Suffix(shown: Shown): string
  {
    match shown
    case Millions(_) => "M"
    case Thousands(_) => "K"
    case _ => ""
  }

  /** `formatValue`. */
  function FormatValue(v: CardValue): (r: Shown)
    ensures r.Millions? <==> v.Number? && v.n >= 1000000.0
    ensures r.Thousands? <==> v.Number? && 1000.0 <= v.n < 1000000.0
    ensures r.Plain? <==> v.Number? && v.n < 1000.0
    ensures r.Unchanged? <==> v.Currency?
    ensures r.Millions? ==> r.scaled * 1000000.0 == v.n
    ensures r.Thousands? ==> r.scaled * 1000.0 == v.n
    ensures r.Plain? ==> r.n == v.n
    ensures r.Unchanged? ==> r.value == v
  {
    match v
    case Number(n) =>
      if n >= 1000000.0 then Millions(n / 1000000.0)
      else if n >= 1000.0 then Thousands(n / 1000.0)
      else Plain(n)
    case Currency(_) => Unchanged(v)
  }

  /** A scaled value lies in [1, 1000) for thousands and is at least 1 for
      millions, so the suffix never hides a leading zero; the suffix is "M"
      exactly from a million up, "K" exactly from a thousand below a million.
      The bounds are on the exact quotient; the one-decimal text can round
      999950 and above up to "1000.0K". */
  lemma ScaledRange(n: real)
    ensures FormatValue(Number(n)).Millions? ==> FormatValue(Number(n)).scaled >= 1.0
    ensures FormatValue(Number(n)).Thousands? ==>
      1.0 <= FormatValue(Number(n)).scaled < 1000.0
    ensures Suffix(FormatValue(Number(n))) == "M" <==> n >= 1000000.0
    ensures Suffix(FormatValue(Number(n))) == "K" <==> 1000.0 <= n < 1000000.0
    ensures Suffix(FormatValue(Number(n))) == "" <==> n < 1000.0
  {
  }
}
