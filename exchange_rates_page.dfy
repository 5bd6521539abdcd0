/**
 * The ExchangeRates page: it loads a USD-based rate table once and converts
 * an amount between two currencies through US dollars. A table entry that
 * is missing or zero counts as 1 (JavaScript's `rates[c] || 1`).
 */
module ExchangeRatesPage {
  import opened Wrappers
  import opened Numeric

  /** `rates[c] || 1`: the entry for `c`, or 1 when it is missing or zero. */
  function EntryOrOne(rates: map<string, real>, c: string): (r: real)
    ensures r != 0.0
    ensures c in rates && rates[c] != 0.0 ==> r == rates[c]
    ensures c !in rates || rates[c] == 0.0 ==> r == 1.0
  {
    if c in rates && rates[c] != 0.0 then rates[c] else 1.0
  }

  /** The rate handleConvert uses for two different currencies. */
  function PageRate(rates: map<string, real>, from: string, to: string): (r: real)
    ensures r != 0.0
  {
    if from == "USD" then EntryOrOne(rates, to)
    else if to == "USD" then 1.0 / EntryOrOne(rates, from)
    else (1.0 / EntryOrOne(rates, from)) * EntryOrOne(rates, to)
  }

  /** The value handleConvert stores: the amount itself for one currency, else amount × rate. */
  function Converted(rates: map<string, real>, from: string, to: string, amount: Num): Num
  {
    if from == to then amount else Mul(amount, Finite(PageRate(rates, from, to)))
  }

  /**
   * From USD the rate is the table's entry for the target, to USD it is
   * the inverse of the source's entry, whatever the table holds.
   */
  lemma UsdLegs(rates: map<string, real>, c: string)
    requires c != "USD"
    ensures PageRate(rates, "USD", c) == EntryOrOne(rates, c)
    ensures PageRate(rates, c, "USD") * EntryOrOne(rates, c) == 1.0
  {
  }

  /** A cross rate is the product of the two legs through USD. */
  lemma CrossRateThroughUsd(rates: map<string, real>, from: string, to: string)
    requires from != "USD" && to != "USD"
    ensures PageRate(rates, from, to) == PageRate(rates, from, "USD") * PageRate(rates, "USD", to)
  {
  }

  /**
   * For any table and any two different currencies, the rate there times
   * the rate back is exactly 1 (over exact reals).
   */
  lemma RoundTripRate(rates: map<string, real>, a: string, b: string)
    requires a != b
    ensures PageRate(rates, a, b) * PageRate(rates, b, a) == 1.0
  {
    var ea := EntryOrOne(rates, a);
    var eb := EntryOrOne(rates, b);
    if a == "USD" {
      InverseCancels(eb);
    } else if b == "USD" {
      InverseCancels(ea);
    } else {
      CrossCancels(ea, eb);
    }
  }

  lemma InverseCancels(x: real)
    requires x != 0.0
    ensures x * (1.0 / x) == 1.0 && (1.0 / x) * x == 1.0
  {
  }

  lemma CrossCancels(x: real, y: real)
    requires x != 0.0 && y != 0.0
    ensures ((1.0 / x) * y) * ((1.0 / y) * x) == 1.0
  {
    var p := 1.0 / x;
    var q := 1.0 / y;
    assert p * x == 1.0;
    assert q * y == 1.0;
    assert (p * y) * (q * x) == (p * x) * (q * y);
  }

  /** Converting a finite amount there and back gives the amount again. */
  lemma ConvertRoundTrip(rates: map<string, real>, a: string, b: string, x: real)
    ensures Converted(rates, b, a, Converted(rates, a, b, Finite(x))) == Finite(x)
  {
    if a != b {
      RoundTripRate(rates, a, b);
      var r1 := PageRate(rates, a, b);
      var r2 := PageRate(rates, b, a);
      assert (x * r1) * r2 == x * (r1 * r2);
    }
  }

  class ExchangeRatesPageState {
    var rates: map<string, real>
    var loadingRates: bool
    var amount: Num
    var fromCurrency: string
    var toCurrency: string
    var convertedAmount: Num

    constructor ()
      ensures rates == map[] && loadingRates
      ensures amount == Finite(1.0) && fromCurrency == "USD" && toCurrency == "KRW"
      ensures convertedAmount == Finite(0.0)
    {
      rates := map[];
      loadingRates := true;
      amount := Finite(1.0);
      fromCurrency := "USD";
      toCurrency := "KRW";
      convertedAmount := Finite(0.0);
    }

    /**
     * fetchExchangeRates, given the response's rate table or None when the
     * request failed: a table replaces `rates` wholesale, a failure keeps
     * them; loading ends either way.
     */
    method FetchExchangeRates(response: Option<map<string, real>>)
      modifies this
      ensures rates == if response.Some? then response.value else old(rates)
      ensures !loadingRates
      ensures amount == old(amount) && fromCurrency == old(fromCurrency) && toCurrency == old(toCurrency)
      ensures convertedAmount == old(convertedAmount)
    {
      if response.Some? {
        rates := response.value;
      }
      loadingRates := false;
    }

    /** The amount input: Number(e.target.value). */
    method SetAmount(value: Num)
      modifies this
      ensures amount == value
      ensures rates == old(rates) && loadingRates == old(loadingRates) && fromCurrency == old(fromCurrency)
      ensures toCurrency == old(toCurrency) && convertedAmount == old(convertedAmount)
    {
      amount := value;
    }

    /** handleConvert: only `convertedAmount` changes. */
    method HandleConvert()
      modifies this
      ensures convertedAmount == Converted(rates, fromCurrency, toCurrency, amount)
      ensures fromCurrency == toCurrency ==> convertedAmount == amount
      ensures rates == old(rates) && loadingRates == old(loadingRates) && amount == old(amount)
      ensures fromCurrency == old(fromCurrency) && toCurrency == old(toCurrency)
    {
      if fromCurrency == toCurrency {
        convertedAmount := amount;
        return;
      }
      var rate := 1.0;
      if fromCurrency == "USD" {
        rate := EntryOrOne(rates, toCurrency);
      } else if toCurrency == "USD" {
        rate := 1.0 / EntryOrOne(rates, fromCurrency);
      } else {
        var usdToFrom := 1.0 / EntryOrOne(rates, fromCurrency);
        var usdToTo := EntryOrOne(rates, toCurrency);
        rate := usdToFrom * usdToTo;
      }
      convertedAmount := Mul(amount, Finite(rate));
    }
  }
}
