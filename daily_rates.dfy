/**
 * The backend's DailyExchangeRateService: once a day it stores, for each
 * foreign currency, the rate in won together with the change against the
 * previous day's stored rate. The Supabase table daily_exchange_rates is
 * the class's `rows` field; dates are day numbers, and the fetch of the
 * day's rates is an input outcome.
 */
module DailyRates {
  import opened Wrappers
  import opened Seqs

  /** One row of daily_exchange_rates (the table's own id and created_at are not modelled). */
  datatype DailyRate = DailyRate(
    currencyFrom: string,
    currencyTo: string,
    rate: real,
    previousRate: Option<real>,
    changeAmount: Option<real>,
    changePercentage: Option<real>,
    date: int)

  /**
   * What the rate fetch gave: an exception, or the rates by source currency
   * in the order of the returned dictionary.
   */
  datatype FetchOutcome = Raised | Fetched(rates: seq<(string, real)>)

  /** Some row is dated `d` (the existence query of store_daily_rates). */
  predicate HasRowsFor(rows: seq<DailyRate>, d: int)
  {
    exists i :: 0 <= i < |rows| && rows[i].date == d
  }

  /** The row is dated `d`. */
  function DatedOn(d: int): DailyRate -> bool
  {
    (r: DailyRate) => r.date == d
  }

  /**
   * The previous-day query: the rate of a stored row for `currency`→KRW
   * dated `d`, if any (the query names no order, so which matching row
   * answers is left open).
   */
  function PreviousRate(rows: seq<DailyRate>, currency: string, d: int): (p: Option<real>)
    ensures p.None? <==> forall i :: 0 <= i < |rows| ==>
      !(rows[i].currencyFrom == currency && rows[i].currencyTo == "KRW" && rows[i].date == d)
    ensures p.Some? ==> exists i :: (0 <= i < |rows| && rows[i].currencyFrom == currency
                                    && rows[i].currencyTo == "KRW" && rows[i].date == d && rows[i].rate == p.value)
  {
    if |rows| == 0 then None
    else if rows[0].currencyFrom == currency && rows[0].currencyTo == "KRW" && rows[0].date == d then Some(rows[0].rate)
    else
      var p := PreviousRate(rows[1..], currency, d);
      assert forall i :: 1 <= i < |rows| ==> rows[i] == rows[1..][i - 1];
      p
  }

  /** The row prepared for one fetched rate: X→KRW on day `d`, with the change against `previous`. */
  function PrepareRow(currency: string, rate: real, previous: Option<real>, d: int): (r: DailyRate)
    ensures r.currencyFrom == currency && r.currencyTo == "KRW" && r.rate == rate && r.date == d
    ensures r.previousRate == previous
    ensures previous.None? ==> r.changeAmount.None? && r.changePercentage.None?
    ensures previous.Some? ==> r.changeAmount == Some(rate - previous.value)
    ensures previous.Some? ==> (r.changePercentage.Some? <==> previous.value != 0.0)
    ensures previous.Some? && previous.value != 0.0 ==>
      r.changePercentage.value * previous.value == (rate - previous.value) * 100.0
  {
    match previous
    case None => DailyRate(currency, "KRW", rate, None, None, None, d)
    case Some(p) =>
      var change := rate - p;
      DailyRate(currency, "KRW", rate, Some(p), Some(change), if p != 0.0 then Some(change / p * 100.0) else None, d)
  }

  /** The rows store_daily_rates prepares from the fetched rates: KRW is skipped, order kept. */
  function PreparedRows(rows: seq<DailyRate>, fetched: seq<(string, real)>, d: int): seq<DailyRate>
  {
    if |fetched| == 0 then []
    else
      var (currency, rate) := fetched[|fetched| - 1];
      PreparedRows(rows, fetched[..|fetched| - 1], d)
        + (if currency == "KRW" then [] else [PrepareRow(currency, rate, PreviousRate(rows, currency, d - 1), d)])
  }

  /** Every prepared row is X→KRW for a fetched X other than KRW, dated `d`, with its previous-day change. */
  lemma {:induction false} PreparedRowsShape(rows: seq<DailyRate>, fetched: seq<(string, real)>, d: int)
    ensures |PreparedRows(rows, fetched, d)| <= |fetched|
    ensures forall r :: r in PreparedRows(rows, fetched, d) ==>
      && r.currencyTo == "KRW" && r.currencyFrom != "KRW" && r.date == d
      && (r.currencyFrom, r.rate) in fetched
      && r == PrepareRow(r.currencyFrom, r.rate, PreviousRate(rows, r.currencyFrom, d - 1), d)
  {
    if |fetched| > 0 {
      var init := fetched[..|fetched| - 1];
      var last := fetched[|fetched| - 1];
      PreparedRowsShape(rows, init, d);
      assert forall x :: x in init ==> x in fetched;
      assert last in fetched;
      assert last == (last.0, last.1);
    }
  }

  /** Every fetched currency other than KRW gets a prepared row. */
  lemma {:induction false} PreparedRowsComplete(rows: seq<DailyRate>, fetched: seq<(string, real)>, d: int, i: int)
    requires 0 <= i < |fetched| && fetched[i].0 != "KRW"
    ensures PrepareRow(fetched[i].0, fetched[i].1, PreviousRate(rows, fetched[i].0, d - 1), d)
      in PreparedRows(rows, fetched, d)
  {
    if i < |fetched| - 1 {
      PreparedRowsComplete(rows, fetched[..|fetched| - 1], d, i);
    }
  }

  /**
   * The outcome of store_daily_rates on a table: whether it reports success
   * and the table afterwards. Rows already dated `d` mean success with
   * nothing fetched or inserted; a raised or empty fetch means failure; the
   * prepared rows are inserted and success reported only when the insert
   * returns data, which an empty batch never does.
   */
  function StoreOutcome(rows: seq<DailyRate>, d: int, fetched: FetchOutcome, insertOk: bool): (bool, seq<DailyRate>)
  {
    if HasRowsFor(rows, d) then (true, rows)
    else if fetched.Raised? || |fetched.rates| == 0 then (false, rows)
    else
      var prepared := PreparedRows(rows, fetched.rates, d);
      if insertOk && |prepared| > 0 then (true, rows + prepared) else (false, rows)
  }

  /**
   * Per-date idempotence: once a store for a day has succeeded, storing that
   * day again succeeds and changes nothing, whatever the fetch gives.
   */
  lemma StoreIdempotent(rows: seq<DailyRate>, d: int, fetched: FetchOutcome, insertOk: bool,
                        fetched2: FetchOutcome, insertOk2: bool)
    requires StoreOutcome(rows, d, fetched, insertOk).0
    ensures var after := StoreOutcome(rows, d, fetched, insertOk).1;
      StoreOutcome(after, d, fetched2, insertOk2) == (true, after)
  {
    var after := StoreOutcome(rows, d, fetched, insertOk).1;
    if !HasRowsFor(rows, d) {
      var prepared := PreparedRows(rows, fetched.rates, d);
      PreparedRowsShape(rows, fetched.rates, d);
      assert prepared[0] in prepared;
      assert after[|rows|] == prepared[0];
    }
  }

  /** A store that reports failure leaves the table as it was; one that succeeds only appends. */
  lemma StoreOnlyAppends(rows: seq<DailyRate>, d: int, fetched: FetchOutcome, insertOk: bool)
    ensures var (ok, after) := StoreOutcome(rows, d, fetched, insertOk);
      (!ok ==> after == rows) && |after| >= |rows| && after[..|rows|] == rows
      && forall i :: |rows| <= i < |after| ==> after[i].date == d && after[i].currencyTo == "KRW"
  {
    if !HasRowsFor(rows, d) && fetched.Fetched? && |fetched.rates| > 0 {
      var prepared := PreparedRows(rows, fetched.rates, d);
      PreparedRowsShape(rows, fetched.rates, d);
      var after := StoreOutcome(rows, d, fetched, insertOk).1;
      assert forall i :: |rows| <= i < |after| ==> after[i] in prepared || after == rows;
    }
  }

  /**
   * For a day without rows, a raised or empty fetch fails and so does an
   * insert that returns no data; either way the table is left as it was.
   */
  lemma StoreFailsWithoutData(rows: seq<DailyRate>, d: int, fetched: FetchOutcome, insertOk: bool)
    ensures !HasRowsFor(rows, d) && (fetched.Raised? || |fetched.rates| == 0)
            ==> StoreOutcome(rows, d, fetched, insertOk) == (false, rows)
    ensures !HasRowsFor(rows, d) && !insertOk ==> StoreOutcome(rows, d, fetched, insertOk) == (false, rows)
  {
  }

  /** A store that reports success leaves rows dated that day in the table. */
  lemma StoreSucceedsWithRows(rows: seq<DailyRate>, d: int, fetched: FetchOutcome, insertOk: bool)
    ensures StoreOutcome(rows, d, fetched, insertOk).0 ==> HasRowsFor(StoreOutcome(rows, d, fetched, insertOk).1, d)
  {
    if StoreOutcome(rows, d, fetched, insertOk).0 {
      StoreIdempotent(rows, d, fetched, insertOk, fetched, insertOk);
    }
  }

  /**
   * The fetch as the repository writes it: the exchange-rate service has no
   * get_rates method, so the call raises AttributeError, which the method's
   * handler turns into False.
   */
  const AsWrittenFetch: FetchOutcome := Raised

  /** As written, a store for a day without rows never succeeds and never inserts. */
  lemma AsWrittenStoreNeverInserts(rows: seq<DailyRate>, d: int, insertOk: bool)
    requires !HasRowsFor(rows, d)
    ensures StoreOutcome(rows, d, AsWrittenFetch, insertOk) == (false, rows)
  {
  }

  /**
   * With a fetch that returns rates (as intended), a successful store
   * leaves one row for each fetched currency other than KRW on that day.
   */
  lemma IntendedStoreRecordsEveryCurrency(rows: seq<DailyRate>, d: int, rates: seq<(string, real)>, i: int)
    requires !HasRowsFor(rows, d)
    requires StoreOutcome(rows, d, Fetched(rates), true).0
    requires 0 <= i < |rates| && rates[i].0 != "KRW"
    ensures exists r :: (r in StoreOutcome(rows, d, Fetched(rates), true).1
                         && r.currencyFrom == rates[i].0 && r.rate == rates[i].1 && r.date == d)
  {
    PreparedRowsComplete(rows, rates, d, i);
    var r := PrepareRow(rates[i].0, rates[i].1, PreviousRate(rows, rates[i].0, d - 1), d);
    assert r in rows + PreparedRows(rows, rates, d);
  }

  /** The latest stored date. */
  function LatestDate(rows: seq<DailyRate>): (d: int)
    requires |rows| > 0
    ensures exists i :: 0 <= i < |rows| && rows[i].date == d
    ensures forall i :: 0 <= i < |rows| ==> rows[i].date <= d
  {
    if |rows| == 1 then rows[0].date
    else
      var rest := LatestDate(rows[1..]);
      assert forall i :: 1 <= i < |rows| ==> rows[i] == rows[1..][i - 1];
      if rows[0].date >= rest then rows[0].date else rest
  }

  class DailyExchangeRateService {
    /** The daily_exchange_rates table, in insertion order. */
    var rows: seq<DailyRate>

    constructor (initial: seq<DailyRate>)
      ensures rows == initial
    {
      rows := initial;
    }

    /**
     * store_daily_rates. `targetDate` defaults to `today`; `fetched` is
     * what the rate fetch gave and `insertOk` whether the insert returned data.
     */
    method StoreDailyRates(targetDate: Option<int>, today: int, fetched: FetchOutcome, insertOk: bool)
      returns (ok: bool)
      modifies this
      ensures (ok, rows) == StoreOutcome(old(rows), targetDate.GetOr(today), fetched, insertOk)
      ensures HasRowsFor(old(rows), targetDate.GetOr(today)) ==> ok && rows == old(rows)
      ensures ok ==> HasRowsFor(rows, targetDate.GetOr(today))
    {
      var d := targetDate.GetOr(today);
      StoreSucceedsWithRows(rows, d, fetched, insertOk);
      if HasRowsFor(rows, d) {
        return true;
      }
      if fetched.Raised? || |fetched.rates| == 0 {
        return false;
      }
      var stored := PrepareAll(rows, fetched.rates, d);
      if insertOk && |stored| > 0 {
        rows := rows + stored;
        return true;
      }
      return false;
    }

    /** The loop of store_daily_rates that builds `stored_rates`. */
    static method PrepareAll(rows: seq<DailyRate>, fetched: seq<(string, real)>, d: int)
      returns (stored: seq<DailyRate>)
      ensures stored == PreparedRows(rows, fetched, d)
    {
      var previousDate := d - 1;
      stored := [];
      var i := 0;
      while i < |fetched|
        invariant 0 <= i <= |fetched|
        invariant stored == PreparedRows(rows, fetched[..i], d)
      {
        var currency := fetched[i].0;
        var rate := fetched[i].1;
        assert fetched[..i + 1][..i] == fetched[..i];
        if currency != "KRW" {
          var previous := PreviousRate(rows, currency, previousDate);
          stored := stored + [PrepareRow(currency, rate, previous, d)];
        }
        i := i + 1;
      }
      assert fetched[..i] == fetched;
    }

    /** get_daily_rates: the rows dated `targetDate`, today by default. */
    function GetDailyRates(targetDate: Option<int>, today: int): (r: seq<DailyRate>)
      reads this
      ensures forall x :: x in r <==> x in rows && x.date == targetDate.GetOr(today)
    {
      Filter(rows, DatedOn(targetDate.GetOr(today)))
    }

    /**
     * get_latest_rates_with_changes: the rows of the most recent stored
     * date; with an empty table it first stores today's rates, then reads today.
     */
    method GetLatestRatesWithChanges(today: int, fetched: FetchOutcome, insertOk: bool)
      returns (r: seq<DailyRate>)
      modifies this
      ensures old(rows) != [] ==> (rows == old(rows)
                                   && forall x :: x in r <==> x in rows && x.date == LatestDate(rows))
      ensures old(rows) == [] ==> (rows == StoreOutcome([], today, fetched, insertOk).1
                                   && forall x :: x in r <==> x in rows && x.date == today)
    {
      if |rows| == 0 {
        var _ := StoreDailyRates(None, today, fetched, insertOk);
        return GetDailyRates(None, today);
      }
      var latest := LatestDate(rows);
      r := Filter(rows, DatedOn(latest));
    }
  }
}
