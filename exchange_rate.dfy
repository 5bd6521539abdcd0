/**
 * The backend's ExchangeRateService. The HTTP request for the latest rates
 * of a base currency is abstracted as an input: `feeds` maps each base
 * currency to the JSON body the rate API answers with, and a base without
 * an entry is a request that raised.
 */
module ExchangeRate {
  import opened Wrappers
  import opened Numeric

  /** The JSON body of GET /latest/{base}: the rate table and its optional "date". */
  datatype RatesData = RatesData(rates: map<string, real>, date: Option<string>)

  /** The rate API's answers, one per base currency that it answers for. */
  type Feeds = map<string, RatesData>

  /** The exception get_current_rates lets through (network error, non-2xx status). */
  datatype FetchError = FetchError

  /** get_current_rates(base). */
  function GetCurrentRates(feeds: Feeds, base: string): (r: Result<RatesData, FetchError>)
    ensures r.Success? <==> base in feeds
    ensures r.Success? ==> r.value == feeds[base]
  {
    if base in feeds then Success(feeds[base]) else Failure(FetchError)
  }

  /** get_conversion_rate: the target's entry in the from-currency's table, 0.0 when absent. */
  function GetConversionRate(feeds: Feeds, from: string, to: string): (r: Result<real, FetchError>)
    ensures r.Failure? <==> from !in feeds
    ensures r.Success? && to in feeds[from].rates ==> r.value == feeds[from].rates[to]
    ensures r.Success? && to !in feeds[from].rates ==> r.value == 0.0
  {
    match GetCurrentRates(feeds, from)
    case Failure(e) => Failure(e)
    case Success(data) => Success(if to in data.rates then data.rates[to] else 0.0)
  }

  datatype Conversion = Conversion(
    amount: real, fromCurrency: string, toCurrency: string,
    rate: real, convertedAmount: real, timestamp: string)

  /** convert_amount: amount times the rate, rounded to two decimals. */
  function ConvertAmount(feeds: Feeds, amount: real, from: string, to: string, now: string)
    : (r: Result<Conversion, FetchError>)
    ensures r.Failure? <==> from !in feeds
    ensures r.Success? ==> (r.value.amount == amount && r.value.fromCurrency == from
                            && r.value.toCurrency == to && r.value.timestamp == now)
    ensures r.Success? ==> Success(r.value.rate) == GetConversionRate(feeds, from, to)
    ensures r.Success? ==> (IsCents(r.value.convertedAmount)
                            && -0.005 <= r.value.convertedAmount - amount * r.value.rate <= 0.005)
    ensures r.Success? && to !in feeds[from].rates ==> r.value.convertedAmount == 0.0
  {
    match GetConversionRate(feeds, from, to)
    case Failure(e) => Failure(e)
    case Success(rate) =>
      assert rate == 0.0 ==> PyRound2(amount * rate) == 0.0 by {
        if rate == 0.0 {
          assert IsCents(0.0);
          RoundingKeepsCents(0.0);
        }
      }
      Success(Conversion(amount, from, to, rate, PyRound2(amount * rate), now))
  }

  datatype MultipleRates = MultipleRates(base: string, rates: map<string, real>, timestamp: string)

  /**
   * get_multiple_rates: the requested currencies that the base's table
   * lists, with their rates unchanged; the timestamp is the table's date,
   * or today when it has none.
   */
  method GetMultipleRates(feeds: Feeds, base: string, targets: seq<string>, today: string)
    returns (r: Result<MultipleRates, FetchError>)
    ensures r.Failure? <==> base !in feeds
    ensures r.Success? ==> r.value.base == base && r.value.timestamp == feeds[base].date.GetOr(today)
    ensures r.Success? ==> forall c :: c in r.value.rates <==> c in targets && c in feeds[base].rates
    ensures r.Success? ==> forall c :: c in r.value.rates ==> r.value.rates[c] == feeds[base].rates[c]
  {
    var fetched := GetCurrentRates(feeds, base);
    if fetched.Failure? {
      return Failure(fetched.error);
    }
    var data := fetched.value;
    var filtered: map<string, real> := map[];
    var i := 0;
    while i < |targets|
      invariant 0 <= i <= |targets|
      invariant forall c :: c in filtered <==> c in targets[..i] && c in data.rates
      invariant forall c :: c in filtered ==> filtered[c] == data.rates[c]
    {
      var currency := targets[i];
      if currency in data.rates {
        filtered := filtered[currency := data.rates[currency]];
      }
      assert targets[..i + 1] == targets[..i] + [currency];
      i := i + 1;
    }
    assert targets[..i] == targets;
    r := Success(MultipleRates(base, filtered, data.date.GetOr(today)));
  }

  /**
   * get_supported_currencies: the keys of the USD table, each once. The
   * order of the JSON object's keys is not modelled, so any order is allowed.
   */
  method GetSupportedCurrencies(feeds: Feeds) returns (r: Result<seq<string>, FetchError>)
    ensures r.Failure? <==> "USD" !in feeds
    ensures r.Success? ==> forall c :: c in r.value <==> c in feeds["USD"].rates
    ensures r.Success? ==> |r.value| == |feeds["USD"].rates|
    ensures r.Success? ==> forall i, j :: 0 <= i < j < |r.value| ==> r.value[i] != r.value[j]
  {
    var fetched := GetCurrentRates(feeds, "USD");
    if fetched.Failure? {
      return Failure(fetched.error);
    }
    var remaining := fetched.value.rates.Keys;
    var keys: seq<string> := [];
    while remaining != {}
      invariant remaining !! set c | c in keys
      invariant forall c :: c in fetched.value.rates <==> c in remaining || c in keys
      invariant |keys| + |remaining| == |fetched.value.rates|
      invariant forall i, j :: 0 <= i < j < |keys| ==> keys[i] != keys[j]
      decreases remaining
    {
      var c :| c in remaining;
      keys := keys + [c];
      remaining := remaining - {c};
    }
    r := Success(keys);
  }
}
