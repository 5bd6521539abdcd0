/**
 * The Calculator component: a typed amount, two selected currencies and a
 * result text. The rate comes from a constant nested table
 * `rates[from][to]`; a missing row or entry counts as 1.
 */
module Calculator {
  import opened Numeric

  /** The component's rates table; the won has no row of its own. */
  const Rates: map<string, map<string, real>> := map[
    "USD" := map["KRW" := 1340.50, "JPY" := 149.8, "EUR" := 0.92, "CNY" := 7.25],
    "JPY" := map["KRW" := 8.94, "USD" := 0.0067, "EUR" := 0.0061, "CNY" := 0.048],
    "EUR" := map["KRW" := 1456.78, "USD" := 1.09, "JPY" := 163.4, "CNY" := 7.89],
    "CNY" := map["KRW" := 184.32, "USD" := 0.138, "JPY" := 20.7, "EUR" := 0.127]]

  /**
   * What the result field shows: the typed text itself, or a number as
   * toLocaleString renders it (the rendering is not modelled).
   */
  datatype Shown = Text(text: string) | Localized(n: Num)

  /** `rates[fromCurrency]?.[toCurrency] || 1`. */
  function TableRate(from: string, to: string): (r: real)
    ensures r > 0.0
    ensures from in Rates && to in Rates[from] ==> r == Rates[from][to]
    ensures from !in Rates || to !in Rates[from] ==> r == 1.0
  {
    assert forall f, t :: f in Rates && t in Rates[f] ==> Rates[f][t] > 0.0;
    if from in Rates && to in Rates[from] then Rates[from][to] else 1.0
  }

  /** The won has no row, so converting from it always uses rate 1. */
  lemma FromKrwIsOne(to: string)
    ensures TableRate("KRW", to) == 1.0
  {
  }

  /** No row lists its own currency, so the rate table never quotes a currency against itself. */
  lemma NoSelfEntries(c: string)
    ensures TableRate(c, c) == 1.0
  {
    assert forall f :: f in Rates ==> f !in Rates[f];
  }

  /**
   * The result of handleCalculate for the typed amount, its parse and the
   * pair's rate: the text itself for one currency, otherwise the product
   * rounded to cents.
   */
  function Calculated(fromAmount: string, parsed: Num, rate: real, from: string, to: string): (s: Shown)
    requires parsed.Finite? || parsed.NaN?
    ensures from == to ==> s == Text(fromAmount)
    ensures from != to ==> s.Localized?
    ensures from != to && parsed.Finite? ==>
      s.n.Finite? && IsCents(s.n.v) && -0.005 <= s.n.v - parsed.v * rate <= 0.005
    ensures from != to && parsed.NaN? ==> s == Localized(NaN)
  {
    if from == to then Text(fromAmount)
    else
      match parsed
      case Finite(x) => Localized(Finite(JsFixed2(x * rate)))
      case NaN => Localized(NaN)
  }

  class CalculatorState {
    var fromAmount: string
    var fromCurrency: string
    var toCurrency: string
    var result: Shown

    constructor ()
      ensures fromAmount == "100" && fromCurrency == "USD" && toCurrency == "KRW"
      ensures result == Text("134,050")
    {
      fromAmount := "100";
      fromCurrency := "USD";
      toCurrency := "KRW";
      result := Text("134,050");
    }

    /** handleCalculate: only `result` changes. */
    method HandleCalculate()
      modifies this
      ensures result == Calculated(fromAmount, ParseFloat(fromAmount), TableRate(fromCurrency, toCurrency),
                                   fromCurrency, toCurrency)
      ensures fromAmount == old(fromAmount) && fromCurrency == old(fromCurrency) && toCurrency == old(toCurrency)
    {
      var parsed := ParseFloat(fromAmount);
      var rate := TableRate(fromCurrency, toCurrency);
      result := Calculated(fromAmount, parsed, rate, fromCurrency, toCurrency);
    }
  }
}
