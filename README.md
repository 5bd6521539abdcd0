# Exchange-rate travel app: a Dafny model of its logic

This project models the logic of the exchange-rate travel app: a FastAPI backend with a frontend of React components. The model covers four groups, each stated and proved in Dafny 4.

- **Alert store and trigger engine.** The backend's in-memory `AlertService` holds a dictionary of alert settings and an append-only notification history. It creates, updates and deletes alerts, queries them by user or by active flag, and decides which alerts fire. An alert fires when its rate is at or above the target (condition `above`), or at or below it (condition `below`). An alert that was already notified within the last hour does not fire again. The service also returns history newest first with a limit, and per-user statistics. The `/alerts` routes add the user-id check (401) and the ownership check (404) in front of the service.
- **Rate resolution and conversion.** The app has six rate lookups, each modelled separately:
  - the backend rate service over a fetched table, where a missing entry is 0.0;
  - the database-free server's USD hub over `MOCK_RATES`, where a missing entry is 1.0;
  - the daily-rate service, which stores each currency's rate in won with its change against the previous day, at most once per date;
  - the rates page, a USD-anchored table where a missing or zero entry counts as 1;
  - the converter's `"FROM-TO"` pair table;
  - the calculator's nested table.
- **Frontend state.** The model covers these components:
  - the amount calculator with its input sanitisers;
  - the rate chart's figures;
  - the alert form's validation;
  - the alert dashboard's and alert page's list edits;
  - the connection badge;
  - the theme provider.
- **Configuration.** `DEBUG` parsing and the CORS origin list.

Modelling conventions:
- Decimal and JavaScript numbers are exact reals. Where JavaScript can produce NaN or an infinity, a number is `Finite(real) | NaN | Infinity(sign)`.
- Python dictionaries are maps. Where the order of their values matters, an insertion-order list of keys sits beside the map.
- Clocks, generated ids, HTTP answers, the Supabase table and the browser's storage become parameters or fields of the model.

Each component whose state changes is a class whose methods state the new state completely. The pure logic those methods use is a set of module-level functions with lemmas about them.

Files:
- `wrappers.dfy`: Option and Result.
- `numeric.dfy`: JavaScript number arithmetic, a simplified `parseFloat`, and two-decimal rounding.
- `text.dfy`: upper and lower case, strip, split and join.
- `seqs.dfy`: order-keeping filter.
- One file per source file, named after it.

## Model

| member | source | states |
|---|---|---|
| Alerts.AlertService.constructor | backend/app/services/alert_service.py:11-15 | the store starts with no alerts and an empty notification history |
| Alerts.NewAlert | backend/app/services/alert_service.py:17-35 | a new alert has the given id and owner, upper-cased currency codes, the request's rate, condition and flag, and created_at equal to updated_at |
| Alerts.AlertService.CreateAlertSetting | backend/app/services/alert_service.py:17-35 | the store gains exactly the new alert under its id; every other alert and the history are unchanged |
| Alerts.ValuesInOrder | backend/app/services/alert_service.py:39-42 | the dictionary's values are listed in key insertion order, one per key |
| Alerts.AlertService.Values | backend/app/services/alert_service.py:40 | the values list holds exactly the stored alerts |
| Alerts.AlertService.GetUserAlerts | backend/app/services/alert_service.py:37-42 | returns exactly the stored alerts owned by the user |
| Alerts.AlertService.GetAlertById | backend/app/services/alert_service.py:44-46 | returns the stored alert for the id, or None exactly when the id is absent |
| Alerts.ApplyUpdate | backend/app/services/alert_service.py:54-62 | only the non-None fields among rate, condition and flag change; id, owner, pair and created_at are kept; updated_at becomes now |
| Alerts.ApplyUpdateIdempotent | backend/app/services/alert_service.py:54-62 | applying the same partial update twice gives the same alert as once |
| Alerts.AlertService.UpdateAlertSetting | backend/app/services/alert_service.py:48-64 | a missing id returns None with the store unchanged; otherwise the stored alert becomes the updated one and nothing else changes |
| Alerts.AlertService.DeleteAlertSetting | backend/app/services/alert_service.py:66-71 | returns true iff the id was stored; the id is removed and nothing else changes |
| Alerts.AlertService.GetActiveAlerts | backend/app/services/alert_service.py:73-78 | returns exactly the stored alerts whose flag is set |
| Alerts.ConditionsCoverAllRates | backend/app/services/alert_service.py:95-98 | every rate fires at least one of the two conditions, and both only at the target itself |
| Alerts.ShouldTrigger | backend/app/services/alert_service.py:94-98 | 'above' fires at or over the target, 'below' at or under it (no ensures; characterised by ConditionsCoverAllRates) |
| Alerts.HasRecentNotification | backend/app/services/alert_service.py:115-123 | some notification for the alert was sent strictly after now minus the window (no ensures; CheckRecentNotification is proved against it) |
| Alerts.CheckAlert | backend/app/services/alert_service.py:85-111 | one alert yields at most one report (what it reports is stated by TriggeredAlertsMembers) |
| Alerts.TriggeredAlerts | backend/app/services/alert_service.py:80-113 | the trigger rule over a list: each alert's report, in list order (no ensures; characterised by TriggeredAlertsMembers and TriggeredAlertsAtMostOnce) |
| Alerts.TriggeredAlertsMembers | backend/app/services/alert_service.py:85-108 | a report is produced for an alert iff its rate lookup succeeds, its condition holds at that rate, and no notification for it was sent within the last hour |
| Alerts.TriggeredAlertsAtMostOnce | backend/app/services/alert_service.py:85-113 | no alert is reported twice, and there are never more reports than alerts |
| Alerts.AlertService.CheckAlertConditions | backend/app/services/alert_service.py:80-113 | the loop over the active alerts returns exactly the reports of the trigger rule over them, in order |
| Alerts.AlertService.CheckRecentNotification | backend/app/services/alert_service.py:115-123 | true iff some notification for the alert was sent strictly after now minus the window |
| Alerts.AlertService.CheckOneAlert | backend/app/services/alert_service.py:85-108 | the loop body for one alert reports exactly what the trigger rule reports for it |
| Alerts.AlertService.RecordNotification | backend/app/services/alert_service.py:125-138 | for a stored alert, exactly one entry carrying the alert's id and owner is appended; for a missing alert a key error and nothing changes |
| Alerts.InsertNewest | backend/app/services/alert_service.py:148 | inserting into a newest-first list keeps it newest first and adds exactly that entry |
| Alerts.SortNewestFirst | backend/app/services/alert_service.py:148 | the result is newest first and a permutation of the input |
| Alerts.UserNotificationHistory | backend/app/services/alert_service.py:140-149 | only the user's notifications, newest first; for a limit of 0 or more exactly min(limit, the user's count) of them, all of them when the limit allows; every one of the user's notifications cut off is no newer than every one returned |
| Alerts.NewestIsFirst | backend/app/services/alert_service.py:148-149 | with a positive limit, the first entry is at least as recent as any of the user's notifications |
| Alerts.UserStatistics | backend/app/services/alert_service.py:151-173 | active plus inactive equals total; the notification count is min(the user's count, 50); the recent count is the number of those 50 newest sent within the week before now; the last notification is the newest sent_at, or None iff the user has none |
| Alerts.AlertService.GetUserNotificationHistory | backend/app/services/alert_service.py:140-149 | only stored notifications of the user, newest first, at most the limit; it is the history query over the stored notifications, so its exact length and left-out ordering are those of UserNotificationHistory |
| Alerts.AlertService.GetAlertStatistics | backend/app/services/alert_service.py:151-173 | active plus inactive is the number of the user's stored alerts; recent is at most total, which is at most 50; all figures are UserStatistics over the user's stored alerts and the stored notifications |
| AlertRoutes.Authenticate | backend/app/api/alerts.py:16-17 | a missing header is 422, an empty one 401, otherwise the caller is the header's value |
| AlertRoutes.OwnedAlert | backend/app/api/alerts.py:50-52 | the alert is returned iff it exists and belongs to the caller, otherwise 404 |
| AlertRoutes.GetUserAlerts | backend/app/api/alerts.py:13-23 | the caller's alerts, or the authentication error |
| AlertRoutes.CreateAlert | backend/app/api/alerts.py:25-38 | after authentication, exactly one alert owned by the caller is stored and a new id joins the end of the listing order; on a failed check nothing changes |
| AlertRoutes.GetAlert | backend/app/api/alerts.py:40-57 | succeeds iff the caller is authenticated and owns the stored alert; a missing or foreign alert is 404, not 400 |
| AlertRoutes.UpdateAlert | backend/app/api/alerts.py:59-83 | the ownership check runs first; on 401, 404 or 422 the store is unchanged, otherwise only that alert is updated |
| AlertRoutes.DeleteAlert | backend/app/api/alerts.py:85-108 | the ownership check runs first; on failure the store is unchanged, otherwise only that id is removed, from the store and from the listing order |
| AlertRoutes.ValidateLimit | backend/app/api/alerts.py:113 | an absent limit is 50, a limit in 1..100 is kept, any other is refused |
| AlertRoutes.GetNotificationHistory | backend/app/api/alerts.py:110-123 | a bad limit or missing header is 422, an empty header 401; otherwise exactly the service's history for the caller with the validated limit: newest first, at most that limit |
| AlertRoutes.GetAlertStatistics | backend/app/api/alerts.py:125-135 | exactly the service's statistics for the caller, or the authentication error |
| AlertRoutes.TestAlertTrigger | backend/app/api/alerts.py:137-156 | only the caller's triggered alerts are reported, and the count equals their number |
| AlertRoutes.SendTestEmail | backend/app/api/alerts.py:198-211 | a failed send surfaces as 500, never 400, because the generic handler catches the inner 400 |
| AlertRoutes.RegisterUserEmail | backend/app/api/alerts.py:213-226 | a missing header or email is 422, an empty header 401; otherwise the caller's address is recorded |
| AlertRoutes.NoForeignAlerts | backend/app/api/alerts.py:13-57 | no successful read returns an alert owned by someone other than the caller |
| ExchangeRate.GetCurrentRates | backend/app/services/exchange_rate.py:10-15 | the fetched table for the base, or the fetch error |
| ExchangeRate.GetConversionRate | backend/app/services/exchange_rate.py:17-20 | the target's entry in the from-currency's table, or 0.0 when absent |
| ExchangeRate.ConvertAmount | backend/app/services/exchange_rate.py:22-34 | echoes amount, pair and time; converted is amount times rate rounded to cents, and 0 for a missing pair |
| ExchangeRate.GetMultipleRates | backend/app/services/exchange_rate.py:36-49 | keeps exactly the requested currencies the table lists, with unchanged values; base echoed; timestamp is the table's date or today |
| ExchangeRate.GetSupportedCurrencies | backend/app/services/exchange_rate.py:51-54 | exactly the keys of the USD table, each once |
| DailyRates.PreviousRate | backend/app/services/daily_exchange_rate_service.py:48-55 | the rate of a stored row for the currency to KRW on the given day, or None iff there is none |
| DailyRates.PrepareRow | backend/app/services/daily_exchange_rate_service.py:50-68 | an X-to-KRW row for the day; change is rate minus previous; the percentage exists only for a nonzero previous and equals change / previous × 100; no previous means all three are None |
| DailyRates.PreparedRows | backend/app/services/daily_exchange_rate_service.py:42-70 | the prepared rows of the fetched rates, KRW skipped, order kept (no ensures; characterised by PreparedRowsShape and PreparedRowsComplete) |
| DailyRates.PreparedRowsShape | backend/app/services/daily_exchange_rate_service.py:42-70 | every prepared row is X-to-KRW for a fetched X other than KRW, dated the target day, with its previous-day change |
| DailyRates.PreparedRowsComplete | backend/app/services/daily_exchange_rate_service.py:42-70 | every fetched currency other than KRW gets its prepared row |
| DailyRates.StoreOutcome | backend/app/services/daily_exchange_rate_service.py:19-84 | the result and the table after a store (no ensures; characterised by StoreIdempotent, StoreOnlyAppends and StoreSucceedsWithRows) |
| DailyRates.StoreIdempotent | backend/app/services/daily_exchange_rate_service.py:26-30 | once a store for a day has succeeded, storing that day again succeeds and changes nothing |
| DailyRates.StoreOnlyAppends | backend/app/services/daily_exchange_rate_service.py:33-84 | a failed store leaves the table as it was; a store only appends KRW rows dated that day |
| DailyRates.StoreSucceedsWithRows | backend/app/services/daily_exchange_rate_service.py:73-80 | a store that reports success leaves rows for that day in the table |
| DailyRates.StoreFailsWithoutData | backend/app/services/daily_exchange_rate_service.py:32-84 | for a day without rows, a raised or empty fetch reports failure, and so does an insert returning no data; the table is left unchanged |
| DailyRates.AsWrittenStoreNeverInserts | backend/app/services/daily_exchange_rate_service.py:33 | with the fetch as written, a store for a new day fails and inserts nothing |
| DailyRates.IntendedStoreRecordsEveryCurrency | backend/app/services/daily_exchange_rate_service.py:33-77 | with a fetch that returns rates, a successful store records every fetched currency other than KRW for that day |
| DailyRates.DailyExchangeRateService.StoreDailyRates | backend/app/services/daily_exchange_rate_service.py:19-84 | the result and new table are the store outcome for the target date (today by default); existing rows mean true with nothing changed |
| DailyRates.DailyExchangeRateService.PrepareAll | backend/app/services/daily_exchange_rate_service.py:42-70 | the loop builds exactly the prepared rows |
| DailyRates.DailyExchangeRateService.GetDailyRates | backend/app/services/daily_exchange_rate_service.py:86-101 | exactly the stored rows of the date (today by default) |
| DailyRates.LatestDate | backend/app/services/daily_exchange_rate_service.py:107 | the most recent stored date: a date some row has and no row exceeds |
| DailyRates.DailyExchangeRateService.GetLatestRatesWithChanges | backend/app/services/daily_exchange_rate_service.py:103-126 | the rows of the latest date; an empty table is first stored for today, then read |
| SimpleServer.ConvertCurrency | backend/simple_server.py:70-98 | the parameters default to USD, KRW and 100; the rate is the USD-hub rate of the pair, which is positive; converted is amount times that rate |
| SimpleServer.ConversionRate | backend/simple_server.py:79-87 | the USD-hub rate: the USD row's entry from USD, the row's USD entry to USD, their product otherwise, a missing entry counting as 1.0 (characterised by the lemmas below) |
| SimpleServer.ConvertSameDerivedCurrency | backend/simple_server.py:83-98 | KRW to KRW and EUR to EUR convert to the amount itself |
| SimpleServer.RatePositive | backend/simple_server.py:79-87 | every quoted rate is positive |
| SimpleServer.UsdToUsdIsOne | backend/simple_server.py:79-80 | USD to USD is 1.0 |
| SimpleServer.JpyToKrw | backend/simple_server.py:83-87 | a currency without a row counts as one dollar: JPY to KRW is 1340.5 |
| SimpleServer.RowCurrenciesRoundTrip | backend/simple_server.py:33-50 | among USD, KRW and EUR, the rate there times the rate back is exactly 1 |
| SimpleServer.SameDerivedCurrencyIsOne | backend/simple_server.py:85-87 | KRW to KRW and EUR to EUR come out at exactly 1 |
| SimpleServer.HubAgreesWithDerivedRows | backend/simple_server.py:33-50 | for the KRW and EUR rows, the hub rate equals the row's own entry |
| SimpleServer.JpyRoundTripIsNotOne | backend/simple_server.py:81-87 | for a currency without a row the round trip is not 1: JPY to USD to JPY gives 150 |
| SimpleServer.GetExchangeRates | backend/simple_server.py:61-68 | base USD; the rates name exactly the seven supported currencies other than USD, each at the rate the converter uses from USD |
| SimpleServer.GetSupportedCurrencies | backend/simple_server.py:102-109 | eight distinct codes, the count equals the list length, and exactly the currencies the table knows |
| Config.Debug | backend/app/config.py:13 | true iff DEBUG, lower-cased, is "true"; absent means false |
| Config.CorsOriginsList | backend/app/config.py:21-24 | the stripped, non-empty comma-separated segments (no ensures; characterised by CorsOriginsAreClean, CorsOriginsMembers and CorsOriginsRoundTrip) |
| Config.CorsOriginsAreClean | backend/app/config.py:24 | no listed origin is empty, holds a comma, or has white space at either end |
| Config.CorsOriginsMembers | backend/app/config.py:24 | an origin is listed iff it is the non-empty strip of a comma-separated segment |
| Config.CorsOriginsRoundTrip | backend/app/config.py:24 | joining clean origins with commas and parsing gives back the same list in the same order |
| Config.DefaultCorsOriginsList | backend/app/config.py:14 | without CORS_ORIGINS the list is exactly ["http://localhost:3000"] |
| ExchangeRatesPage.EntryOrOne | frontend/src/pages/ExchangeRates.jsx:45 | the entry when present and nonzero, else 1; never 0 |
| ExchangeRatesPage.PageRate | frontend/src/pages/ExchangeRates.jsx:43-52 | the page's rate is never 0, whatever the table holds |
| ExchangeRatesPage.Converted | frontend/src/pages/ExchangeRates.jsx:37-55 | the amount itself for one currency, else amount × the page rate (no ensures; characterised by ConvertRoundTrip and HandleConvert) |
| ExchangeRatesPage.UsdLegs | frontend/src/pages/ExchangeRates.jsx:44-47 | from USD the rate is the target's entry; to USD it is the inverse of the source's entry |
| ExchangeRatesPage.CrossRateThroughUsd | frontend/src/pages/ExchangeRates.jsx:48-52 | a cross rate is the product of the two legs through USD |
| ExchangeRatesPage.RoundTripRate | frontend/src/pages/ExchangeRates.jsx:43-52 | for any table and different A and B, rate(A→B) × rate(B→A) = 1 |
| ExchangeRatesPage.ConvertRoundTrip | frontend/src/pages/ExchangeRates.jsx:37-55 | converting a finite amount there and back gives the amount |
| ExchangeRatesPage.ExchangeRatesPageState.constructor | frontend/src/pages/ExchangeRates.jsx:9-14 | empty table, loading, amount 1, USD to KRW, converted 0 |
| ExchangeRatesPage.ExchangeRatesPageState.FetchExchangeRates | frontend/src/pages/ExchangeRates.jsx:26-35 | a response replaces the table wholesale, a failure keeps it; loading ends either way |
| ExchangeRatesPage.ExchangeRatesPageState.SetAmount | frontend/src/pages/ExchangeRates.jsx:116 | only the amount changes |
| ExchangeRatesPage.ExchangeRatesPageState.HandleConvert | frontend/src/pages/ExchangeRates.jsx:37-55 | the converted amount is the amount itself for one currency, else amount × rate; nothing else changes |
| CurrencyConverter.PairRate | frontend/src/components/ExchangeRate/CurrencyConverter.jsx:58-59 | the table's entry for "FROM-TO", or 1 when absent; always positive |
| CurrencyConverter.PairKeysAreDistinctCodes | frontend/src/components/ExchangeRate/CurrencyConverter.jsx:36-53 | every key of the pair table is "XXX-YYY" with codes whose first letters differ |
| CurrencyConverter.SameCurrencyKeyAbsent | frontend/src/components/ExchangeRate/CurrencyConverter.jsx:36-53 | a table whose keys pair codes with different first letters never pairs a currency with itself |
| CurrencyConverter.SameCurrencyRateIsOne | frontend/src/components/ExchangeRate/CurrencyConverter.jsx:58-59 | a currency converted to itself gets rate 1 |
| CurrencyConverter.AcceptedAmountIsPositive | frontend/src/components/ExchangeRate/CurrencyConverter.jsx:26-29 | an accepted amount is non-empty and, when it parses, positive |
| CurrencyConverter.PositiveDigitsAccepted | frontend/src/components/ExchangeRate/CurrencyConverter.jsx:26-29 | a positive amount typed as digits is accepted |
| CurrencyConverter.RejectsAmount | frontend/src/components/ExchangeRate/CurrencyConverter.jsx:26-29 | an empty amount, or one parsing to at most 0, is rejected (no ensures; characterised by AcceptedAmountIsPositive and PositiveDigitsAccepted) |
| CurrencyConverter.Conversion | frontend/src/components/ExchangeRate/CurrencyConverter.jsx:60-69 | echoes the parsed amount and the pair; the rate is the pair table's rate; converted is amount × rate, NaN for NaN |
| CurrencyConverter.ConversionSameCurrency | frontend/src/components/ExchangeRate/CurrencyConverter.jsx:58-69 | converting a currency to itself gives back the parsed amount |
| CurrencyConverter.Swap | frontend/src/components/ExchangeRate/CurrencyConverter.jsx:79-83 | the two currencies trade places |
| CurrencyConverter.SwapTwiceRestores | frontend/src/components/ExchangeRate/CurrencyConverter.jsx:79-83 | swapping twice restores the pair |
| CurrencyConverter.CurrencyConverterState.constructor | frontend/src/components/ExchangeRate/CurrencyConverter.jsx:18-23 | amount "100", USD to KRW, no result, not loading, no error |
| CurrencyConverter.CurrencyConverterState.ConvertCurrency | frontend/src/components/ExchangeRate/CurrencyConverter.jsx:25-77 | an empty or non-positive amount sets the error and converts nothing; otherwise the error is cleared, the result set, and loading ends false |
| CurrencyConverter.CurrencyConverterState.SwapCurrencies | frontend/src/components/ExchangeRate/CurrencyConverter.jsx:79-83 | the currencies are swapped and the result cleared |
| CurrencyConverter.CurrencyConverterState.OnCurrenciesChanged | frontend/src/components/ExchangeRate/CurrencyConverter.jsx:96-100 | converts only when the amount and both currencies are set and the currencies differ, and then with convertCurrency's outcome: an accepted amount sets the result, clears the error and ends loading; a rejected one sets the error and keeps result and loading |
| Calculator.TableRate | frontend/src/components/Calculator.jsx:20-30 | the nested table's entry, or 1 when the row or entry is missing; always positive |
| Calculator.FromKrwIsOne | frontend/src/components/Calculator.jsx:20-25 | KRW has no row, so KRW to anything uses 1 |
| Calculator.NoSelfEntries | frontend/src/components/Calculator.jsx:20-30 | no row lists its own currency, so a currency to itself gets rate 1 |
| Calculator.Calculated | frontend/src/components/Calculator.jsx:27-32 | the text unchanged for one currency; otherwise the product rounded to cents (within 0.005), NaN for an unparsable amount |
| Calculator.CalculatorState.constructor | frontend/src/components/Calculator.jsx:5-8 | "100", USD to KRW, result "134,050" |
| Calculator.CalculatorState.HandleCalculate | frontend/src/components/Calculator.jsx:18-34 | only the result changes, to the calculated value for the typed amount and the pair's rate |
| CurrencyCalculator.DollarTextKeepsDigitsAndDots | frontend/src/components/CurrencyCalculator.jsx:11 | the sanitised text keeps every digit and dot as often as typed, in order, and nothing else |
| CurrencyCalculator.DollarText | frontend/src/components/CurrencyCalculator.jsx:11 | the dollar sanitiser `replace(/[^0-9.]/g, '')` (no ensures; characterised by the lemmas around it) |
| CurrencyCalculator.WonText | frontend/src/components/CurrencyCalculator.jsx:18 | the won sanitiser, keep digits and commas then drop commas (no ensures; characterised by WonTextIsDigits and WonTextIdempotent) |
| CurrencyCalculator.DollarTextIdempotent | frontend/src/components/CurrencyCalculator.jsx:11 | sanitising twice is sanitising once |
| CurrencyCalculator.WonTextIsDigits | frontend/src/components/CurrencyCalculator.jsx:18 | the two replacements together keep exactly the digits |
| CurrencyCalculator.WonTextIdempotent | frontend/src/components/CurrencyCalculator.jsx:18 | sanitising the won text twice is sanitising it once |
| CurrencyCalculator.DollarTextNonNegative | frontend/src/components/CurrencyCalculator.jsx:11-13 | the sanitised dollar text never parses to a negative number |
| CurrencyCalculator.WonFor | frontend/src/components/CurrencyCalculator.jsx:13 | (parsed or 0) × 1340.50 |
| CurrencyCalculator.DollarsFor | frontend/src/components/CurrencyCalculator.jsx:20-21 | (parsed or 0) / 1340.50 rounded to cents, within 0.005 |
| CurrencyCalculator.DollarsWonRoundTrip | frontend/src/components/CurrencyCalculator.jsx:13-21 | dollars to won and back give the amount rounded to cents, and a whole number of cents exactly |
| CurrencyCalculator.WonDigitsToDollars | frontend/src/components/CurrencyCalculator.jsx:18-21 | no digits give 0 dollars; otherwise the won amount is the digits' value |
| CurrencyCalculator.CurrencyCalculatorState.constructor | frontend/src/components/CurrencyCalculator.jsx:6-8 | "100" and "134,050" |
| CurrencyCalculator.CurrencyCalculatorState.HandleFromAmountChange | frontend/src/components/CurrencyCalculator.jsx:10-15 | the dollar field shows the sanitised text, the won field its converted value, which is never negative |
| CurrencyCalculator.CurrencyCalculatorState.HandleToAmountChange | frontend/src/components/CurrencyCalculator.jsx:17-22 | the won field shows the parsed digits (NaN for none), the dollar field the converted cents (0 for none) |
| Chart.RatesOf | frontend/src/components/ExchangeRateChart.jsx:218 | the rates of the data points, in order |
| Chart.RawPercentage | frontend/src/components/ExchangeRateChart.jsx:36 | change / previous × 100 for nonzero previous; NaN for 0/0; a signed infinity otherwise |
| Chart.Fixed2 | frontend/src/components/ExchangeRateChart.jsx:39-40 | finite numbers rounded to cents, NaN and infinities unchanged |
| Chart.CalculateChange | frontend/src/components/ExchangeRateChart.jsx:30-43 | under 2 points: 0, 0, rising; otherwise rising iff latest ≥ previous, change within a cent of the difference, and the percentage finite iff previous ≠ 0 |
| Chart.LatestRate | frontend/src/components/ExchangeRateChart.jsx:46 | the last rate, or 0 without data |
| Chart.MaxOf | frontend/src/components/ExchangeRateChart.jsx:218 | a member of the list and at least every element |
| Chart.MinOf | frontend/src/components/ExchangeRateChart.jsx:224 | a member of the list and at most every element |
| Chart.MathMax | frontend/src/components/ExchangeRateChart.jsx:218 | -Infinity without data; otherwise a rate of the data that no rate exceeds |
| Chart.MathMin | frontend/src/components/ExchangeRateChart.jsx:224 | +Infinity without data; otherwise a rate of the data that no rate undercuts |
| Chart.Average | frontend/src/components/ExchangeRateChart.jsx:230 | sum / count; NaN without data |
| Chart.SumBounds | frontend/src/components/ExchangeRateChart.jsx:230 | a sum of values within bounds lies between count × lower and count × upper |
| Chart.AverageBetweenMinAndMax | frontend/src/components/ExchangeRateChart.jsx:218-230 | the unrounded average lies between the lowest and the highest rate |
| Chart.SingleRateFigures | frontend/src/components/ExchangeRateChart.jsx:218-230 | one rate is its own maximum, minimum and average |
| AlertForm.InitialForm | frontend/src/components/AlertSettings/AlertForm.jsx:18-24 | defaults USD, KRW, '', 'above', active; truthy initial fields win; an is_active of false is kept |
| AlertForm.InactiveInitialDataKept | frontend/src/components/AlertSettings/AlertForm.jsx:23 | an initial is_active of false survives |
| AlertForm.Apply | frontend/src/components/AlertSettings/AlertForm.jsx:59-63 | only the named field changes |
| AlertForm.LastChangeWins | frontend/src/components/AlertSettings/AlertForm.jsx:59-63 | two changes to the same field leave the second's value |
| AlertForm.ParseRate | frontend/src/components/AlertSettings/AlertForm.jsx:32 | the parsed rate is a number or NaN |
| AlertForm.ValidationError | frontend/src/components/AlertSettings/AlertForm.jsx:32-40 | the rate error iff the rate is missing or parses to ≤ 0; else the currency error iff the currencies are equal; else none |
| AlertForm.SubmitDataOf | frontend/src/components/AlertSettings/AlertForm.jsx:46-49 | the form's fields unchanged, with the rate parsed |
| AlertForm.EditUnchangedSubmitsAlert | frontend/src/components/AlertSettings/AlertForm.jsx:18-24 | an unedited form for an alert submits that alert's own values |
| AlertForm.ValidSubmitData | frontend/src/components/AlertSettings/AlertForm.jsx:32-49 | a valid submit has two different currencies and a positive or unparsable rate |
| AlertForm.FailureMessage | frontend/src/components/AlertSettings/AlertForm.jsx:53 | the rejection's message, or the fallback text when it is empty |
| AlertForm.AlertFormState.constructor | frontend/src/components/AlertSettings/AlertForm.jsx:18-27 | the initial form, not loading, no error |
| AlertForm.AlertFormState.HandleInputChange | frontend/src/components/AlertSettings/AlertForm.jsx:59-65 | only the named field changes and the error is cleared |
| AlertForm.AlertFormState.HandleSubmit | frontend/src/components/AlertSettings/AlertForm.jsx:29-57 | a failed check sets its error and submits nothing; otherwise the parsed data is submitted, a rejection sets its message, and loading ends false |
| AlertDashboard.NewAlert | frontend/src/components/AlertSettings/AlertDashboard.jsx:112-118 | the new id, owner demo_user, the form's fields, created_at equal to updated_at |
| AlertDashboard.Merged | frontend/src/components/AlertSettings/AlertDashboard.jsx:134-138 | id, owner and created_at of the edited alert; the form's fields; updated_at now |
| AlertDashboard.ReplaceById | frontend/src/components/AlertSettings/AlertDashboard.jsx:140-142 | same length; only the alerts with the id are replaced |
| AlertDashboard.SetActiveById | frontend/src/components/AlertSettings/AlertDashboard.jsx:166-170 | same length; only the alerts with the id get the status and a new updated_at |
| AlertDashboard.RemoveById | frontend/src/components/AlertSettings/AlertDashboard.jsx:156 | keeps exactly the alerts with another id |
| AlertDashboard.RemoveByIdCount | frontend/src/components/AlertSettings/AlertDashboard.jsx:156 | the list shrinks by the number of alerts with the id, and none remains |
| AlertDashboard.RemoveAbsentId | frontend/src/components/AlertSettings/AlertDashboard.jsx:156 | removing an id nobody has changes nothing |
| AlertDashboard.MapAbsentId | frontend/src/components/AlertSettings/AlertDashboard.jsx:140-170 | replacing or toggling an id nobody has changes nothing |
| AlertDashboard.SetActiveTwice | frontend/src/components/AlertSettings/AlertDashboard.jsx:166-170 | setting the same status twice is setting it once |
| AlertDashboard.BlankMeansAllSpace | frontend/src/components/AlertSettings/AlertDashboard.jsx:178 | an address counts as blank iff it is all white space |
| AlertDashboard.AlertDashboardState.constructor | frontend/src/components/AlertSettings/AlertDashboard.jsx:10-17 | no alerts, form hidden, nothing edited, empty address, not loading, no error |
| AlertDashboard.AlertDashboardState.HandleCreateAlert | frontend/src/components/AlertSettings/AlertDashboard.jsx:108-128 | one new alert appended, the others unchanged, form hidden, loading ended |
| AlertDashboard.AlertDashboardState.HandleEditAlert | frontend/src/components/AlertSettings/AlertDashboard.jsx:130-151 | the edited id's alerts become the merged record, others unchanged; editing ends, form hidden, loading ended |
| AlertDashboard.AlertDashboardState.Submit | frontend/src/components/AlertSettings/AlertDashboard.jsx:330 | edit while an alert is being edited, create otherwise |
| AlertDashboard.AlertDashboardState.HandleDeleteAlert | frontend/src/components/AlertSettings/AlertDashboard.jsx:153-161 | the id's alerts dropped, the rest kept in order; nothing else changes |
| AlertDashboard.AlertDashboardState.HandleToggleAlert | frontend/src/components/AlertSettings/AlertDashboard.jsx:163-175 | the id's alerts get the status; nothing else changes |
| AlertDashboard.AlertDashboardState.SetUserEmail | frontend/src/components/AlertSettings/AlertDashboard.jsx:281 | only the address changes |
| AlertDashboard.AlertDashboardState.HandleRegisterEmail | frontend/src/components/AlertSettings/AlertDashboard.jsx:177-190 | a blank address sets the error and registers nothing; otherwise it is registered and the field cleared |
| AlertDashboard.AlertDashboardState.OpenNewAlertForm | frontend/src/components/AlertSettings/AlertDashboard.jsx:303-306 | form shown, nothing edited |
| AlertDashboard.AlertDashboardState.OpenEditForm | frontend/src/components/AlertSettings/AlertDashboard.jsx:316-319 | form shown on that alert |
| AlertDashboard.AlertDashboardState.CancelForm | frontend/src/components/AlertSettings/AlertDashboard.jsx:331-334 | form hidden, nothing edited |
| AlertSettingsPage.NewPageAlert | frontend/src/pages/AlertSettings.jsx:32-38 | the new id, the form's fields with the rate parsed, active, created now |
| AlertSettingsPage.ToggleById | frontend/src/pages/AlertSettings.jsx:49-53 | same length; only the alerts with the id flip their flag |
| AlertSettingsPage.ToggleTwiceRestores | frontend/src/pages/AlertSettings.jsx:49-53 | toggling the same id twice restores the list |
| AlertSettingsPage.TogglesCommute | frontend/src/pages/AlertSettings.jsx:49-53 | toggles of two ids give the same list in either order |
| AlertSettingsPage.RemoveById | frontend/src/pages/AlertSettings.jsx:55-57 | keeps exactly the alerts with another id |
| AlertSettingsPage.RemoveKeepsOrder | frontend/src/pages/AlertSettings.jsx:55-57 | deleting distributes over concatenation, so survivors keep their order |
| AlertSettingsPage.DeleteUndoesSubmit | frontend/src/pages/AlertSettings.jsx:39-57 | deleting an alert just added under a fresh id restores the list |
| AlertSettingsPage.Redirect | frontend/src/pages/AlertSettings.jsx:17-21 | go to /login iff loading is over and there is no user |
| AlertSettingsPage.ApplyChange | frontend/src/pages/AlertSettings.jsx:117-154 | only the named form field changes |
| AlertSettingsPage.AlertSettingsPageState.constructor | frontend/src/pages/AlertSettings.jsx:8-15 | no alerts, form hidden, form USD/KRW/''/below |
| AlertSettingsPage.AlertSettingsPageState.HandleSubmit | frontend/src/pages/AlertSettings.jsx:30-47 | one active alert appended, the others unchanged; the form reset to USD/KRW/''/below and hidden |
| AlertSettingsPage.AlertSettingsPageState.ToggleAlert | frontend/src/pages/AlertSettings.jsx:49-53 | the id's alerts flip; nothing else changes |
| AlertSettingsPage.AlertSettingsPageState.DeleteAlert | frontend/src/pages/AlertSettings.jsx:55-57 | the id's alerts dropped; nothing else changes |
| AlertSettingsPage.AlertSettingsPageState.ToggleForm | frontend/src/pages/AlertSettings.jsx:101 | only the form's visibility flips |
| AlertSettingsPage.AlertSettingsPageState.ChangeField | frontend/src/pages/AlertSettings.jsx:117-154 | only the named form field changes |
| ConnectionStatus.StatusColor | frontend/src/components/ConnectionStatus.jsx:42-47 | red whenever the browser is offline; otherwise green, yellow or gray for online, offline, checking |
| ConnectionStatus.StatusText | frontend/src/components/ConnectionStatus.jsx:49-54 | the no-internet text whenever the browser is offline; otherwise the backend's text |
| ConnectionStatus.Icon | frontend/src/components/ConnectionStatus.jsx:56-61 | the same priority for the icon |
| ConnectionStatus.BadgeAgrees | frontend/src/components/ConnectionStatus.jsx:42-61 | two states share a colour iff they share a text iff they share an icon |
| ConnectionStatus.BadgeIsDetermined | frontend/src/components/ConnectionStatus.jsx:49-54 | offline, the backend status is hidden; online, different statuses show different texts |
| ConnectionStatus.ProbeResult | frontend/src/components/ConnectionStatus.jsx:21-28 | never checking; online iff the probe succeeded; the help panel iff it failed |
| ConnectionStatus.ConnectionStatusState.constructor | frontend/src/components/ConnectionStatus.jsx:7-9 | online, checking, details hidden |
| ConnectionStatus.ConnectionStatusState.UpdateOnlineStatus | frontend/src/components/ConnectionStatus.jsx:13-15 | only the online flag changes |
| ConnectionStatus.ConnectionStatusState.CheckBackendStatus | frontend/src/components/ConnectionStatus.jsx:21-28 | the status becomes the probe's result; nothing else changes |
| ConnectionStatus.ConnectionStatusState.BeginRefresh | frontend/src/components/ConnectionStatus.jsx:149 | the status shows checking |
| ConnectionStatus.ConnectionStatusState.Refresh | frontend/src/components/ConnectionStatus.jsx:148-156 | through checking to the probe's result |
| ConnectionStatus.ConnectionStatusState.ToggleDetails | frontend/src/components/ConnectionStatus.jsx:66 | only the details panel flips |
| ThemeContext.InitialIsDark | frontend/src/contexts/ThemeContext.jsx:21-27 | a saved theme decides (dark iff "dark"); without one the system preference |
| ThemeContext.SystemChanged | frontend/src/contexts/ThemeContext.jsx:30-34 | applied only when no theme is saved |
| ThemeContext.Toggled | frontend/src/contexts/ThemeContext.jsx:50-54 | the flag flips and the matching name is saved |
| ThemeContext.WithTheme | frontend/src/contexts/ThemeContext.jsx:56-59 | dark iff the name is "dark"; the name saved as given |
| ThemeContext.ThemeName | frontend/src/contexts/ThemeContext.jsx:67 | "dark" iff dark, "light" iff not |
| ThemeContext.ToggleTwiceRestores | frontend/src/contexts/ThemeContext.jsx:50-54 | toggling twice restores the flag and saves the matching name |
| ThemeContext.ToggleSurvivesReload | frontend/src/contexts/ThemeContext.jsx:21-27 | what a toggle saves is what the next load reads back |
| ThemeContext.SetThemeSurvivesReload | frontend/src/contexts/ThemeContext.jsx:21-27 | so does any non-empty name; an empty name leaves the next load to the system preference |
| ThemeContext.ToggleFreezesSystemChanges | frontend/src/contexts/ThemeContext.jsx:30-34 | after a toggle, system changes are ignored |
| ThemeContext.UseTheme | frontend/src/contexts/ThemeContext.jsx:5-10 | outside a provider it fails with the error; inside it returns the value |
| ThemeContext.ThemeProviderState.constructor | frontend/src/contexts/ThemeContext.jsx:14-27 | the resolved flag, the stored entry, and the root's class matching the flag |
| ThemeContext.ThemeProviderState.Value | frontend/src/contexts/ThemeContext.jsx:61-68 | the flag and its theme name |
| ThemeContext.ThemeProviderState.OnSystemChange | frontend/src/contexts/ThemeContext.jsx:30-34 | the state after the change handler; the root class follows the flag |
| ThemeContext.ThemeProviderState.ToggleTheme | frontend/src/contexts/ThemeContext.jsx:50-54 | the toggled state; the root class follows the flag |
| ThemeContext.ThemeProviderState.SetTheme | frontend/src/contexts/ThemeContext.jsx:56-59 | the state set by name; the root class follows the flag |
| Numeric.OrZero | frontend/src/components/CurrencyCalculator.jsx:13 | a parse defaulted to 0: the number when truthy, else 0 |
| Numeric.ParseFloat | frontend/src/components/CurrencyCalculator.jsx:13 | parseFloat: always a finite number or NaN |
| Numeric.ParseFloatNonNegative | frontend/src/components/CurrencyCalculator.jsx:13 | text without a minus sign never parses negative |
| Numeric.ParseFloatDigits | frontend/src/components/CurrencyCalculator.jsx:19-20 | a non-empty digit string parses to its decimal value |
| Numeric.ParseFloatEmpty | frontend/src/components/CurrencyCalculator.jsx:19 | the empty string parses to NaN |
| Numeric.PyRound2 | backend/app/services/exchange_rate.py:32 | Python's round(x, 2): a whole number of cents within 0.005 of x, the even one at a tie |
| Numeric.JsFixed2 | frontend/src/components/Calculator.jsx:31 | toFixed(2) read back: a whole number of cents within 0.005 of x, never of the opposite sign, away from zero at a tie |
| Numeric.RoundingKeepsCents | frontend/src/components/Calculator.jsx:31 | both roundings leave a whole number of cents unchanged |
| Text.Upper | backend/app/services/alert_service.py:25-26 | each letter upper-cased, length kept |
| Text.UpperIdempotent | backend/app/services/alert_service.py:25-26 | upper-casing twice is upper-casing once |
| Text.Strip | backend/app/config.py:24 | strip with a given white-space class (no ensures; characterised by StripSpec, StripIdempotent and StripEmpty) |
| Text.StripSpec | backend/app/config.py:24 | strip keeps a contiguous part, drops only white space, and leaves no white space at either end |
| Text.StripIdempotent | backend/app/config.py:24 | stripping twice is stripping once |
| Text.StripEmpty | frontend/src/components/AlertSettings/AlertDashboard.jsx:178 | stripping leaves nothing iff every character is white space |
| Text.Split | backend/app/config.py:24 | split on a separator: at least one part, no part holding the separator |
| Text.Join | backend/app/config.py:24 | join with a separator (no ensures; characterised by SplitJoin and JoinSplit) |
| Text.SplitJoin | backend/app/config.py:24 | splitting a join of comma-free parts gives the parts back |
| Text.JoinSplit | backend/app/config.py:24 | joining the split parts gives the text back |
| Seqs.Filter | backend/app/services/alert_service.py:39-42 | the accepted elements, in order: an element is kept iff it is in the input and accepted |
| Seqs.FilterMultiplicity | frontend/src/components/CurrencyCalculator.jsx:11 | filtering keeps each accepted value as often as it occurs and no rejected one |
| Seqs.FilterFilter | frontend/src/components/CurrencyCalculator.jsx:18 | two filters in a row are one filter by the conjunction |
| Seqs.CountSplit | backend/app/services/alert_service.py:155-156 | accepted and rejected elements together account for the whole list |

## Left out

- Network, HTTP and the database are not modelled. The rate API's answers are an input map. The daily-rate table is a list field. A raised fetch is an input outcome. FastAPI's header and query validation is folded into the route functions.
- `check_alert_monitoring` and the monitoring routes (backend/app/api/alerts.py:158-196) are left out. They drive the background monitoring service, which is threads and timers. The notification service's e-mail sending and lookups are left out too; a send's success is a parameter.
- Timers and polling are left out: the ConnectionStatus interval, the CurrencyConverter delay, and the async ordering of React state updates. Each handler is modelled as the state it finally leaves.
- Floating point is not modelled. Numbers are exact reals. `toLocaleString` and Python's `isoformat` are not rendered. `toFixed(2)` and `round(x, 2)` are modelled as exact rounding to cents.
- Chart.AverageBetweenMinAndMax: the chart shows the average through `toFixed(0)`, which is not modelled, so the lemma bounds the unrounded average only; a rounded average can fall outside the rounded bounds (rates 1.2 and 1.3 show an average of 1).
- `parseFloat` is simplified. It reads leading white space, a sign, digits and one decimal point. Exponents and the literal "Infinity" are not recognised.
- Case mapping and `strip` work on ASCII letters and on the listed white-space characters only.
- Alerts.AlertService.UpdateAlertSetting: Python updates the stored alert object in place, so a list returned earlier would see the change. The model stores values, so that aliasing is not captured.
- The dictionary's key order is modelled by an insertion-order list. Python's `list.sort` is modelled as a stable insertion sort; equal timestamps keep history order, as Python's stable sort does.
- The daily-rate table's own `id` and `created_at` columns are not modelled. Supabase's `order("date", desc=True).limit(1)` is modelled as the maximum date.
- ExchangeRate.GetSupportedCurrencies: the order of the JSON object's keys is not modelled, so any order of the keys is accepted.
- ExchangeRatesPage: the login redirect and sign-out on that page are not modelled; the same redirect is modelled for the alert page. The currency selects are plain assignments.
- Calculator and CurrencyConverter: the currency select handlers are plain assignments and are not modelled as methods.
- AlertDashboard: the mock loaders are not modelled (alerts, statistics and history are constant data stamped with the clock). Neither is `handleTestEmail`, which only shows a browser alert.
- AlertSettingsPage: sign-out is not modelled. It navigates to /login when the sign-out returns no error.
- Chart: the data-loading effect, which always sets an empty list, is not modelled. The chart figures are modelled over any list. The chart-type and period selectors are not modelled.
- ThemeContext: the browser's storage and the media query are fields and parameters. A missing storage entry and an empty one are both "no saved theme", as `if (savedTheme)` treats them.

## Findings

| source | as written | input that shows it | evidently intended | confidence | as-written member | corrected member |
|---|---|---|---|---|---|---|
| backend/app/services/daily_exchange_rate_service.py:33 | `store_daily_rates` calls `self.exchange_service.get_rates(...)`, but `ExchangeRateService` defines no `get_rates`. The call raises AttributeError, the handler at lines 82-84 returns False, and no day is ever stored. | any target date with no stored rows | fetch the day's rates for USD, JPY, EUR and CNY in won and store one row per currency | not executed | DailyRates.AsWrittenStoreNeverInserts | DailyRates.IntendedStoreRecordsEveryCurrency |
