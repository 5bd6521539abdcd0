/**
 * The CurrencyConverter component: it validates the typed amount, looks
 * the pair up in a constant table keyed "FROM-TO" (an absent pair counts
 * as rate 1), and shows the conversion. The one-second simulated delay is
 * not modelled; the clock reading for the timestamp is a parameter.
 */
module CurrencyConverter {
  import opened Wrappers
  import opened Numeric

  /** The component's mockRates table. */
  const PairRates: map<string, real> := map[
    "USD-KRW" := 1320.50, "KRW-USD" := 0.000757,
    "EUR-KRW" := 1450.30, "KRW-EUR" := 0.000689,
    "JPY-KRW" := 8.95, "KRW-JPY" := 0.112,
    "GBP-KRW" := 1680.75, "KRW-GBP" := 0.000595,
    "CNY-KRW" := 185.20, "KRW-CNY" := 0.0054,
    "USD-EUR" := 0.91, "EUR-USD" := 1.10,
    "USD-JPY" := 147.50, "JPY-USD" := 0.0068,
    "USD-GBP" := 0.79, "GBP-USD" := 1.27]

  const InvalidAmountMessage: string := "올바른 금액을 입력해주세요."

  /** The template string `${fromCurrency}-${toCurrency}`. */
  function RateKey(from: string, to: string): string
  {
    from + "-" + to
  }

  /** `mockRates[rateKey] || 1`. */
  function PairRate(from: string, to: string): (r: real)
    ensures r > 0.0
    ensures RateKey(from, to) in PairRates ==> r == PairRates[RateKey(from, to)]
    ensures RateKey(from, to) !in PairRates ==> r == 1.0
  {
    assert forall k :: k in PairRates ==> PairRates[k] > 0.0;
    var key := RateKey(from, to);
    if key in PairRates then PairRates[key] else 1.0
  }

  /** Every key of the table is seven characters and its two codes start with different letters. */
  lemma PairKeysAreDistinctCodes()
    ensures forall k :: k in PairRates ==> |k| == 7 && k[0] != k[4]
  {
  }

  /** In a table whose keys pair codes with different first letters, no currency is paired with itself. */
  lemma SameCurrencyKeyAbsent(table: map<string, real>, c: string)
    requires forall k :: k in table ==> |k| == 7 && k[0] != k[4]
    ensures RateKey(c, c) !in table
  {
    var key := RateKey(c, c);
    if |c| == 3 {
      assert key[0] == c[0] && key[4] == c[0];
    } else {
      assert |key| != 7;
    }
  }

  /** A currency converted to itself therefore gets rate 1. */
  lemma SameCurrencyRateIsOne(c: string)
    ensures PairRate(c, c) == 1.0
  {
    PairKeysAreDistinctCodes();
    SameCurrencyKeyAbsent(PairRates, c);
  }

  /** The amount check of convertCurrency: `!amount || parseFloat(amount) <= 0`. */
  predicate RejectsAmount(amount: string)
  {
    amount == "" || (ParseFloat(amount).Finite? && ParseFloat(amount).v <= 0.0)
  }

  /** Every amount that passes the check and parses is positive. */
  lemma AcceptedAmountIsPositive(amount: string)
    requires !RejectsAmount(amount)
    ensures amount != ""
    ensures ParseFloat(amount).Finite? ==> ParseFloat(amount).v > 0.0
  {
  }

  /** A positive decimal number typed as plain digits is accepted. */
  lemma PositiveDigitsAccepted(amount: string)
    requires |amount| > 0 && AllDigits(amount) && DigitsValue(amount) > 0
    ensures !RejectsAmount(amount)
  {
    ParseFloatDigits(amount);
  }

  datatype ConversionResult = ConversionResult(
    amount: Num, fromCurrency: string, toCurrency: string,
    rate: real, convertedAmount: Num, timestamp: string)

  /** The result object built for a valid amount, from the parsed amount. */
  function Conversion(parsed: Num, from: string, to: string, now: string): (c: ConversionResult)
    requires parsed.Finite? || parsed.NaN?
    ensures c.amount == parsed && c.fromCurrency == from && c.toCurrency == to
    ensures c.rate == PairRate(from, to) && c.timestamp == now
    ensures parsed.Finite? ==> c.convertedAmount == Finite(parsed.v * c.rate)
    ensures parsed.NaN? ==> c.convertedAmount.NaN?
  {
    ConversionResult(parsed, from, to, PairRate(from, to), Mul(parsed, Finite(PairRate(from, to))), now)
  }

  /** Converting a currency to itself gives back the parsed amount. */
  lemma ConversionSameCurrency(parsed: Num, c: string, now: string)
    requires parsed.Finite? || parsed.NaN?
    ensures Conversion(parsed, c, c, now).convertedAmount == parsed
  {
    SameCurrencyRateIsOne(c);
  }

  /** The automatic conversion's condition: all three inputs set and two different currencies. */
  predicate ShouldAutoConvert(amount: string, from: string, to: string)
  {
    amount != "" && from != "" && to != "" && from != to
  }

  datatype CurrencyPair = CurrencyPair(from: string, to: string)

  /** What swapCurrencies does to the selected pair. */
  function Swap(p: CurrencyPair): (q: CurrencyPair)
    ensures q.from == p.to && q.to == p.from
  {
    CurrencyPair(p.to, p.from)
  }

  /** Swapping twice restores the pair. */
  lemma SwapTwiceRestores(p: CurrencyPair)
    ensures Swap(Swap(p)) == p
  {
  }

  class CurrencyConverterState {
    var amount: string
    var fromCurrency: string
    var toCurrency: string
    var result: Option<ConversionResult>
    var loading: bool
    var error: Option<string>

    constructor ()
      ensures amount == "100" && fromCurrency == "USD" && toCurrency == "KRW"
      ensures result.None? && !loading && error.None?
    {
      amount := "100";
      fromCurrency := "USD";
      toCurrency := "KRW";
      result := None;
      loading := false;
      error := None;
    }

    /**
     * convertCurrency: an empty or non-positive amount sets the error and
     * converts nothing; otherwise the error is cleared, the result is set
     * and loading ends false.
     */
    method ConvertCurrency(now: string)
      modifies this
      ensures amount == old(amount) && fromCurrency == old(fromCurrency) && toCurrency == old(toCurrency)
      ensures RejectsAmount(amount) ==> (error == Some(InvalidAmountMessage)
                                         && result == old(result) && loading == old(loading))
      ensures !RejectsAmount(amount) ==> (error.None? && !loading
                                          && result == Some(Conversion(ParseFloat(amount), fromCurrency, toCurrency, now)))
    {
      if amount == "" || (ParseFloat(amount).Finite? && ParseFloat(amount).v <= 0.0) {
        error := Some(InvalidAmountMessage);
        return;
      }
      loading := true;
      error := None;
      var rateKey := RateKey(fromCurrency, toCurrency);
      var rate := if rateKey in PairRates then PairRates[rateKey] else 1.0;
      var convertedAmount := Mul(ParseFloat(amount), Finite(rate));
      result := Some(ConversionResult(ParseFloat(amount), fromCurrency, toCurrency, rate, convertedAmount, now));
      loading := false;
    }

    /** swapCurrencies: the two currencies trade places and the result is cleared. */
    method SwapCurrencies()
      modifies this
      ensures CurrencyPair(fromCurrency, toCurrency) == Swap(old(CurrencyPair(fromCurrency, toCurrency)))
      ensures result.None?
      ensures amount == old(amount) && loading == old(loading) && error == old(error)
    {
      fromCurrency, toCurrency := toCurrency, fromCurrency;
      result := None;
    }

    /**
     * The effect that runs when either currency changes: converts only for
     * two different currencies, with convertCurrency's outcome for the amount.
     */
    method OnCurrenciesChanged(now: string)
      modifies this
      ensures amount == old(amount) && fromCurrency == old(fromCurrency) && toCurrency == old(toCurrency)
      ensures !ShouldAutoConvert(amount, fromCurrency, toCurrency) ==>
        (result == old(result) && error == old(error) && loading == old(loading))
      ensures ShouldAutoConvert(amount, fromCurrency, toCurrency) && !RejectsAmount(amount) ==>
        (result == Some(Conversion(ParseFloat(amount), fromCurrency, toCurrency, now)) && error.None? && !loading)
      ensures ShouldAutoConvert(amount, fromCurrency, toCurrency) && RejectsAmount(amount) ==>
        (error == Some(InvalidAmountMessage) && result == old(result) && loading == old(loading))
    {
      if amount != "" && fromCurrency != "" && toCurrency != "" && fromCurrency != toCurrency {
        ConvertCurrency(now);
      }
    }
  }
}
