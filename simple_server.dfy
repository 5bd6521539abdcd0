/**
 * The database-free backend: a constant rate table (MOCK_RATES) and the
 * USD-hub conversion that reads it.
 */
module SimpleServer {
  import opened Wrappers

  /** MOCK_RATES["USD"]: units of each currency per US dollar. */
  const UsdRow: map<string, real> := map[
    "KRW" := 1340.5, "JPY" := 150.0, "EUR" := 0.85, "GBP" := 0.79,
    "CNY" := 7.24, "AUD" := 1.52, "CAD" := 1.35]

  /** MOCK_RATES["KRW"]: the USD row divided by the won's USD rate. */
  const KrwRow: map<string, real> := map[
    "USD" := 1.0 / 1340.5, "JPY" := 150.0 / 1340.5, "EUR" := 0.85 / 1340.5,
    "GBP" := 0.79 / 1340.5, "CNY" := 7.24 / 1340.5, "AUD" := 1.52 / 1340.5,
    "CAD" := 1.35 / 1340.5]

  /** MOCK_RATES["EUR"]: the USD row divided by the euro's USD rate. */
  const EurRow: map<string, real> := map[
    "USD" := 1.0 / 0.85, "KRW" := 1340.5 / 0.85, "JPY" := 150.0 / 0.85,
    "GBP" := 0.79 / 0.85, "CNY" := 7.24 / 0.85, "AUD" := 1.52 / 0.85,
    "CAD" := 1.35 / 0.85]

  const MockRates: map<string, map<string, real>> := map["USD" := UsdRow, "KRW" := KrwRow, "EUR" := EurRow]

  /** Python's dict.get(key, default). */
  function Get(m: map<string, real>, key: string, default: real): real
  {
    if key in m then m[key] else default
  }

  /** The rate convert_currency uses: through the USD row, unknown entries counting as 1.0. */
  function ConversionRate(from: string, to: string): real
  {
    if from == "USD" then Get(UsdRow, to, 1.0)
    else if to == "USD" then (if from in MockRates then Get(MockRates[from], "USD", 1.0) else 1.0)
    else
      var usdFromRate := if from in MockRates then Get(MockRates[from], "USD", 1.0) else 1.0;
      var usdToRate := Get(UsdRow, to, 1.0);
      usdFromRate * usdToRate
  }

  datatype Conversion = Conversion(
    amount: real, fromCurrency: string, toCurrency: string,
    rate: real, convertedAmount: real, timestamp: string)

  /**
   * GET /exchange/convert. The query parameters default to USD, KRW and 100.0;
   * the clock reading is a parameter.
   */
  function ConvertCurrency(fromParam: Option<string>, toParam: Option<string>, amountParam: Option<real>, now: string)
    : (c: Conversion)
    ensures c.fromCurrency == fromParam.GetOr("USD") && c.toCurrency == toParam.GetOr("KRW")
    ensures c.amount == amountParam.GetOr(100.0) && c.timestamp == now
    ensures c.rate == ConversionRate(c.fromCurrency, c.toCurrency)
    ensures c.rate > 0.0 && c.convertedAmount == c.amount * c.rate
  {
    var from := fromParam.GetOr("USD");
    var to := toParam.GetOr("KRW");
    var amount := amountParam.GetOr(100.0);
    var rate := ConversionRate(from, to);
    RatePositive(from, to);
    Conversion(amount, from, to, rate, amount * rate, now)
  }

  /** KRW to KRW and EUR to EUR convert to the amount itself. */
  lemma ConvertSameDerivedCurrency(c: string, amountParam: Option<real>, now: string)
    requires c in MockRates.Keys - {"USD"}
    ensures ConvertCurrency(Some(c), Some(c), amountParam, now).convertedAmount == amountParam.GetOr(100.0)
  {
    SameDerivedCurrencyIsOne(c);
  }

  /** Every rate the server quotes is positive. */
  lemma RatePositive(from: string, to: string)
    ensures ConversionRate(from, to) > 0.0
  {
    assert forall k :: k in UsdRow ==> UsdRow[k] > 0.0;
    assert forall r, k :: r in MockRates && k in MockRates[r] ==> MockRates[r][k] > 0.0;
  }

  /** USD to USD is 1.0 (USD has no entry in its own row). */
  lemma UsdToUsdIsOne()
    ensures ConversionRate("USD", "USD") == 1.0
  {
  }

  /** A currency without a row of its own counts as one dollar: JPY to KRW gives 1340.5. */
  lemma JpyToKrw()
    ensures ConversionRate("JPY", "KRW") == 1340.5
  {
  }

  /**
   * Between two currencies that both have a row (USD, KRW, EUR), converting
   * there and back multiplies to exactly 1.
   */
  lemma RowCurrenciesRoundTrip(x: string, y: string)
    requires x in MockRates && y in MockRates
    ensures ConversionRate(x, y) * ConversionRate(y, x) == 1.0
  {
    assert x == "USD" || x == "KRW" || x == "EUR";
    assert y == "USD" || y == "KRW" || y == "EUR";
  }

  /** KRW to KRW and EUR to EUR go through USD and come out at exactly 1. */
  lemma SameDerivedCurrencyIsOne(x: string)
    requires x in MockRates.Keys - {"USD"}
    ensures ConversionRate(x, x) == 1.0
  {
  }

  /**
   * For the two derived rows, the USD-hub rate agrees with the row's own
   * entry for every currency the row lists.
   */
  lemma HubAgreesWithDerivedRows(x: string, y: string)
    requires x in MockRates.Keys - {"USD"} && y in MockRates[x]
    ensures ConversionRate(x, y) == MockRates[x][y]
  {
  }

  /**
   * The hub round trip fails for a currency without a row: JPY to USD is
   * quoted as 1.0, USD to JPY as 150.0.
   */
  lemma JpyRoundTripIsNotOne()
    ensures ConversionRate("JPY", "USD") * ConversionRate("USD", "JPY") == 150.0
  {
  }

  datatype RatesResponse = RatesResponse(base: string, rates: map<string, real>, timestamp: string)

  /** GET /exchange/rates: the USD row with base "USD". */
  function GetExchangeRates(now: string): (r: RatesResponse)
    ensures r.base == "USD" && r.timestamp == now
    ensures forall c :: c in r.rates ==> ConversionRate("USD", c) == r.rates[c]
    ensures "USD" !in r.rates
    ensures forall c :: c in r.rates <==> c in SupportedCurrencies && c != "USD"
  {
    RatesResponse("USD", MockRates["USD"], now)
  }

  const SupportedCurrencies: seq<string> := ["USD", "KRW", "JPY", "EUR", "GBP", "CNY", "AUD", "CAD"]

  datatype CurrenciesResponse = CurrenciesResponse(currencies: seq<string>, count: nat)

  /** GET /exchange/currencies: the eight codes and their count. */
  function GetSupportedCurrencies(): (r: CurrenciesResponse)
    ensures r.count == |r.currencies| == 8
    ensures forall i, j :: 0 <= i < j < |r.currencies| ==> r.currencies[i] != r.currencies[j]
    ensures forall c :: c in MockRates || c in UsdRow <==> c in r.currencies
  {
    CurrenciesResponse(SupportedCurrencies, |SupportedCurrencies|)
  }
}
