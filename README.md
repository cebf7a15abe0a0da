# Market-metrics pipeline of the seasonality dashboard

This project models the data pipeline under a React dashboard for crypto
markets. The dashboard shows daily, weekly and monthly market metrics on a
calendar.

The model covers these parts of the pipeline:

- **Provider normalisation.** Two normalisers turn price and volume points
  from the CoinGecko market-chart API into one OHLC/volume record per UTC
  day (`CoinGecko`, `CryptoService`). The same modules model:
  - the instrument table and the instrument-string parser;
  - the request range;
  - the error messages;
  - the rate-limit delay of the API client.
- **Records.** Daily records are sorted by date, stably (`Market`).
- **Technical indicators** (`TechnicalIndicators`): SMA, RSI, EMA, MACD,
  Bollinger bands, and the signal classifier.
- **Volatility** (`VolatilityService`): rolling annualised volatility and
  its percentile rank.
- **Monthly buckets** (`MonthlyAggregation`): records are grouped into
  calendar-month buckets.
- **TTL cache** (`PerformanceCache`): a cache with lazy expiry, and its key
  builders.
- **CSV export** (`ExportService`): the CSV text for a set of records.
- **Filter panel** (`FilterPanel`): the filter state, its badge count, the
  reset, the view-mode switch and the filter chain.
- **Metrics drawer** (`MetricsPanel`): the selected-day lookup, the
  seven-day window and the number formatters.

Shared pieces live in three modules:

- `Common`: sums, means, extrema, variance, a filter (`Where`) and its
  subsequence property.
- `Text`: split and join, number-to-text.
- `Dates`: UTC day numbers, the proleptic Gregorian calendar and ISO dates.

How the model is built:

- Prices are `real`.
- Dates are integer UTC day numbers, and timestamps are integer
  milliseconds.
- The square root is a function parameter, constrained by `IsSqrt` wherever
  a property needs it.
- A loop the source runs becomes a method whose loop invariants tie it to a
  specification function. The lemmas beside it state what that function
  means.
- State the source updates in place becomes classes with `modifies`
  clauses: the cache, the rate limiter, the filter panel and the drawer.

## Model

| member | source | states |
|---|---|---|
| TechnicalIndicators.CalculateSma | src/utils/technicalIndicators.ts:29-45 | one entry per price; entry i is the SMA at i (0 before a full window or on a short series) |
| TechnicalIndicators.SmaWithinWindow | src/utils/technicalIndicators.ts:37-41 | from index period-1 on, the SMA is the mean of the trailing window, so it lies between the window's minimum and maximum |
| TechnicalIndicators.SmaShortSeries | src/utils/technicalIndicators.ts:30-38 | on a series shorter than the period, or before the first full window, the SMA is 0 |
| TechnicalIndicators.SmaSevenDayExample | src/utils/__tests__/technicalIndicators.test.ts:15-20 | the 7-day SMA of 10,12,...,22 ends in 16 and starts with 0 |
| TechnicalIndicators.Gains | src/utils/technicalIndicators.ts:64-72 | one gain per consecutive price pair, each the non-negative part of the move |
| TechnicalIndicators.Losses | src/utils/technicalIndicators.ts:64-72 | one loss per consecutive price pair, each the non-negative part of the fall |
| TechnicalIndicators.GainLossSplit | src/utils/technicalIndicators.ts:64-72 | at most one of gain and loss is non-zero, and gain minus loss is the price delta |
| TechnicalIndicators.PriceChanges | src/utils/technicalIndicators.ts:61-72 | the loop builds exactly the gain and loss sequences |
| TechnicalIndicators.AvgGain | src/utils/technicalIndicators.ts:74-84 | the running Wilder average of gains is never negative |
| TechnicalIndicators.AvgLoss | src/utils/technicalIndicators.ts:74-84 | the running Wilder average of losses is never negative |
| TechnicalIndicators.SmoothSign | src/utils/technicalIndicators.ts:81-82 | one smoothing step keeps an average non-negative, and keeps it positive when it was positive |
| TechnicalIndicators.AvgStep | src/utils/technicalIndicators.ts:80-84 | each running average is the previous one smoothed with that day's gain or loss |
| TechnicalIndicators.AvgLossStaysPositive | src/utils/technicalIndicators.ts:74-84 | once the seed average loss is positive, every later average loss is positive (RS stays finite) |
| TechnicalIndicators.CalculateRsi | src/utils/technicalIndicators.ts:54-89 | prices.length zeros when there are fewer than period+1 prices, otherwise prices.length-1 entries, each the RSI at that index |
| TechnicalIndicators.RsiOf | src/utils/technicalIndicators.ts:71-73 | computes the RSI value of the two averages, 100 when the average loss is zero (RS is Infinity) |
| TechnicalIndicators.RsiValueRange | src/utils/technicalIndicators.ts:85 | 100 - 100/(1+RS) lies in [0,100]; it is 100 exactly when the average loss is zero and 0 exactly when the average gain is zero |
| TechnicalIndicators.RsiBounds | src/utils/technicalIndicators.ts:54-89 | every RSI entry lies in [0,100] |
| TechnicalIndicators.CalculateEma | src/utils/technicalIndicators.ts:115-130 | max(1, n) values: first the mean of the first period inputs, then p*k + prev*(1-k) with k = 2/(period+1) |
| TechnicalIndicators.EmaWithinRange | src/utils/technicalIndicators.ts:115-130 | when all inputs lie in [lo,hi], so does every EMA value |
| TechnicalIndicators.MacdLine | src/utils/technicalIndicators.ts:132-144 | the MACD line has one entry per price |
| TechnicalIndicators.CalculateMacd | src/utils/technicalIndicators.ts:100-152 | macd, signal and histogram each have one entry per price; histogram = macd - signal; the signal is the EMA of the non-zero MACD values, left-padded with zeros |
| TechnicalIndicators.MacdOfFlatPrices | src/utils/technicalIndicators.ts:132-144 | on a constant price series the MACD line is 0 everywhere |
| TechnicalIndicators.CalculateBollingerBands | src/utils/technicalIndicators.ts:162-195 | three arrays with one entry per price; the middle is the SMA, and upper and lower are the per-index band values |
| TechnicalIndicators.BandsAt | src/utils/technicalIndicators.ts:185-190 | the upper and lower band at a full window are middle plus or minus stdDev times the window's standard deviation |
| TechnicalIndicators.BandsSymmetric | src/utils/technicalIndicators.ts:185-192 | upper - middle = middle - lower = a non-negative offset, so lower <= middle <= upper |
| TechnicalIndicators.BandsCollapseOnFlatWindow | src/utils/technicalIndicators.ts:185-192 | on a flat window the three bands coincide |
| TechnicalIndicators.CalculateAllIndicators | src/utils/technicalIndicators.ts:203-227 | empty input gives empty indicators; otherwise SMA 7/14/30, RSI 14, MACD 12/26/9 and bands 20/2 of the closes |
| TechnicalIndicators.GetTechnicalSignals | src/utils/technicalIndicators.ts:233-288 | the Bollinger signal is always neutral |
| TechnicalIndicators.SignalThresholds | src/utils/technicalIndicators.ts:242-260 | an out-of-range index gives all-neutral; oversold iff RSI < 30 and overbought iff RSI > 70 |
| TechnicalIndicators.MacdThresholds | src/utils/technicalIndicators.ts:252-265 | bullish iff macd > signal and histogram > 0; bearish iff macd < signal and histogram < 0; a missing entry compares false |
| TechnicalIndicators.MacdSignalFromLine | src/utils/technicalIndicators.ts:252-265 | when histogram = macd - signal, bullish iff macd > signal and bearish iff macd < signal |
| TechnicalIndicators.OverallIsMajority | src/utils/technicalIndicators.ts:270-282 | the overall signal is bullish or bearish by strict majority of the two votes; a tie is neutral |
| VolatilityService.DailyReturns | src/utils/volatilityService.ts:23-29 | the loop builds exactly the simple returns of consecutive closes |
| VolatilityService.Returns | src/utils/volatilityService.ts:23-29 | there are length-1 daily returns |
| VolatilityService.CalculateVolatility | src/utils/volatilityService.ts:9-57 | input shorter than 2 comes back unchanged; otherwise one record per input record, in date order, each with the volatility for its index |
| VolatilityService.RollingKeepsRecords | src/utils/volatilityService.ts:16-55 | only the volatility field changes; records before the window are returned as they are; later ones get a volatility; the output is sorted by date |
| VolatilityService.ShortSeriesGetsNoVolatility | src/utils/__tests__/volatilityService.test.ts:14-19 | a series no longer than the window gets no volatility anywhere |
| VolatilityService.VolatilityNonNegative | src/utils/volatilityService.ts:39-50 | the annualised volatility is never negative |
| VolatilityService.VolatilityZeroIffFlat | src/utils/volatilityService.ts:39-50 | the volatility is 0 exactly when every return in the window equals the window mean |
| VolatilityService.Defined | src/utils/volatilityService.ts:71 | keeping the defined values never lengthens the list |
| VolatilityService.DefinedMembers | src/utils/volatilityService.ts:71 | a value is kept exactly when it occurs defined in the input |
| VolatilityService.SortRealsAscending | src/utils/volatilityService.ts:74 | the numeric sort yields an ascending permutation |
| VolatilityService.FirstAtLeast | src/utils/volatilityService.ts:75 | findIndex gives -1 iff no value is at least x, else the first index whose value is at least x |
| VolatilityService.RankIsCountBelow | src/utils/volatilityService.ts:75-77 | on a sorted list the found rank is the number of values below x (all of them when none is found) |
| VolatilityService.CountBelowSorted | src/utils/volatilityService.ts:74-75 | sorting does not change how many values lie below x |
| VolatilityService.PercentileIsFractionBelow | src/utils/volatilityService.ts:65-78 | with defined values, the percentile is the fraction of them strictly below the value |
| VolatilityService.GetVolatilityPercentile | src/utils/volatilityService.ts:65-78 | the percentile lies in [0,1], and is 0 for an undefined value or no defined values |
| VolatilityService.PercentileOneIff | src/utils/volatilityService.ts:74-77 | the percentile is 1 exactly when there are defined values and the value exceeds them all |
| VolatilityService.PercentileZeroIff | src/utils/volatilityService.ts:69-77 | the percentile is 0 exactly when the value is undefined, none are defined, or the value is at most every defined one |
| Market.SortByDate | src/utils/volatilityService.ts:16-20 | the date sort is a permutation of its input |
| Market.SortByDateSorted | src/utils/volatilityService.ts:16-20 | the result is ascending by date |
| Market.SortByDateStable | src/utils/volatilityService.ts:16-20 | records of any one day keep their input order (a stable sort) |
| Market.SortByDateOfSorted | src/api/coingecko.ts:128 | sorting records that are already in date order changes nothing |
| MonthlyAggregation.GroupByMonth | src/utils/monthlyAggregationService.ts:21-30 | the map holds, for each month seen, that month's records in input order; keys are distinct and in first-seen order; the day counts and volumes over the groups add up to the input's |
| MonthlyAggregation.PushDay | src/utils/monthlyAggregationService.ts:26-29 | a record is appended to its month's group, and the month's key is added when new |
| MonthlyAggregation.GroupStepKeeps | src/utils/monthlyAggregationService.ts:24-30 | one forEach step keeps the grouping invariant |
| MonthlyAggregation.SummarizeMonths | src/utils/monthlyAggregationService.ts:33-65 | the loop pushes one summary per key, in key order |
| MonthlyAggregation.SummariesAt | src/utils/monthlyAggregationService.ts:35-64 | the a-th bucket is the summary of the a-th month's records and carries that month's key |
| MonthlyAggregation.AggregateToMonthly | src/utils/monthlyAggregationService.ts:20-68 | empty input gives no buckets; every bucket describes its month's records; every record's month has a bucket; buckets are strictly ascending by month; trading days add up to the record count and volumes to the total volume |
| MonthlyAggregation.SummariesDescribe | src/utils/monthlyAggregationService.ts:35-64 | every bucket summarises exactly the records of its month, and no bucket is empty |
| MonthlyAggregation.SummariesCover | src/utils/monthlyAggregationService.ts:24-35 | every record's month has a bucket |
| MonthlyAggregation.SummariesDistinct | src/utils/monthlyAggregationService.ts:21-35 | no two buckets share a month |
| MonthlyAggregation.SummariesOfNothing | src/utils/monthlyAggregationService.ts:20-36 | empty input gives no buckets |
| MonthlyAggregation.SummariesDays | src/utils/monthlyAggregationService.ts:63 | the buckets' trading days add up to the group sizes |
| MonthlyAggregation.SummariesVolume | src/utils/monthlyAggregationService.ts:44 | the buckets' total volumes add up to the groups' volumes |
| MonthlyAggregation.SortByKeyStrict | src/utils/monthlyAggregationService.ts:67 | buckets with distinct months come out strictly ascending by month |
| MonthlyAggregation.SortByKeyMembers | src/utils/monthlyAggregationService.ts:67 | sorting keeps exactly the same buckets and months |
| MonthlyAggregation.BucketTotalSort | src/utils/monthlyAggregationService.ts:67 | sorting does not change any total over the buckets |
| MonthlyAggregation.SummarizeTotals | src/utils/monthlyAggregationService.ts:44-63 | a bucket's trading days is its record count and its total volume the sum of its volumes |
| MonthlyAggregation.SumVolumesSorted | src/utils/monthlyAggregationService.ts:38-44 | the in-place date sort of a month does not change its total volume |
| MonthlyAggregation.OpenEarliestCloseLatest | src/utils/monthlyAggregationService.ts:38-57 | the bucket opens at the open of a record with the earliest date and closes at the close of one with the latest date |
| MonthlyAggregation.EarliestDay | src/utils/monthlyAggregationService.ts:38-39 | the first record after the date sort is an input record with the earliest date |
| MonthlyAggregation.LatestDay | src/utils/monthlyAggregationService.ts:38-40 | the last record after the date sort is an input record with the latest date |
| MonthlyAggregation.HighLowBound | src/utils/monthlyAggregationService.ts:42-43 | the bucket's high is the highest high of its records and its low the lowest low |
| MonthlyAggregation.Summarize | src/utils/monthlyAggregationService.ts:38-64 | a bucket carries its month key and its record count, and min change <= average change <= max change |
| MonthlyAggregation.VolatilityOverAllDays | src/utils/monthlyAggregationService.ts:48 | the bucket volatility is the sum of the defined volatilities divided by the number of all records (missing counts as 0) |
| MonthlyAggregation.SumOrZeroIsSumDefined | src/utils/monthlyAggregationService.ts:48 | summing volatility-or-zero equals summing only the defined volatilities |
| MonthlyAggregation.SumOrZeroSorted | src/utils/monthlyAggregationService.ts:38-48 | the date sort does not change the volatility sum |
| PerformanceCache.Lookup | src/utils/performanceCache.ts:19-30 | a value is returned iff the key is present and not expired, and it is the stored data |
| PerformanceCache.AfterLookup | src/utils/performanceCache.ts:19-27 | a lookup removes the key only when it has expired and leaves every other key as it was |
| PerformanceCache.Cache.Set | src/utils/performanceCache.ts:11-17 | the key now maps to the data, stamped with the current time and the given ttl |
| PerformanceCache.Cache.SetDefault | src/utils/performanceCache.ts:9-17 | a set without a ttl uses 5 minutes |
| PerformanceCache.Cache.Get | src/utils/performanceCache.ts:19-30 | returns the lookup result and evicts an expired entry |
| PerformanceCache.Cache.Clear | src/utils/performanceCache.ts:32-34 | the cache is empty |
| PerformanceCache.Cache.Has | src/utils/performanceCache.ts:36-38 | answers whether get would return a value, with the same eviction |
| PerformanceCache.SetThenLookup | src/utils/performanceCache.ts:11-30 | a freshly set key is found until its ttl has passed (equality is not expired) and not after |
| PerformanceCache.DefaultTtlBoundary | src/utils/performanceCache.ts:9-23 | with the default ttl a value is still there 300000 ms later and gone at 300001 ms |
| PerformanceCache.SetLeavesOthers | src/utils/performanceCache.ts:11-17 | setting one key does not change the lookup of another |
| PerformanceCache.LookupSideEffects | src/utils/performanceCache.ts:19-38 | a second lookup of the key gives the same answer and state; other keys are unaffected |
| PerformanceCache.ExpiryIsFinal | src/utils/performanceCache.ts:23 | an expired entry stays expired at every later time |
| PerformanceCache.CacheKey | src/utils/performanceCache.ts:44-49 | a key is the kind's prefix followed by the symbol |
| PerformanceCache.CacheKeyInjective | src/utils/performanceCache.ts:44-49 | equal keys come from the same kind and the same symbol |
| CoinGecko.QuoteCurrency | src/api/coingecko.ts:26-33 | fails with "Invalid instrument format" iff the instrument does not split on '-' into exactly two parts |
| CoinGecko.QuoteOfPair | src/api/coingecko.ts:26-33 | for base-quote the result is the lowercased quote, with usdt mapped to usd |
| CoinGecko.SupportedInstrumentsQuotedInUsd | src/api/coingecko.ts:13-32 | every instrument of the table is quoted in usd |
| CoinGecko.RangeRequestFor | src/api/coingecko.ts:42-56 | fails exactly for names the table does not declare: "Unsupported instrument" in general, the invalid-format error for names inherited from Object.prototype; otherwise the range endpoint of the coin id, in usd, with from/to the floor of the millisecond bounds in seconds |
| CoinGecko.KnownNameQuote | src/api/coingecko.ts:42-47 | a name that passes the table lookup is quoted in usd when declared and rejected by the quote parser when inherited |
| CoinGecko.InheritedNamesMalformed | src/api/coingecko.ts:26-33 | an inherited Object.prototype name is not a declared instrument and fails the quote parser with "Invalid instrument format: <name>." |
| CoinGecko.Seconds | src/api/coingecko.ts:48-49 | floor of milliseconds divided by 1000 |
| CoinGecko.FailureMessage | src/api/coingecko.ts:67-74 | the message for an error status, for no response, and for a setup failure |
| CoinGecko.FailureMessageNamesStatus | src/api/coingecko.ts:69 | the status message carries the status digits, which read back as the status |
| CoinGecko.FoldPrices | src/api/coingecko.ts:87-108 | after the price loop each day seen has open = first, close = last, high = max and low = min of its prices, and no volume yet |
| CoinGecko.PriceStepTracks | src/api/coingecko.ts:91-107 | one price step keeps every day's accumulator equal to the aggregate of that day's prices so far |
| CoinGecko.FoldVolumes | src/api/coingecko.ts:110-117 | after the volume loop each priced day holds the sum of its volumes, and no other days appear |
| CoinGecko.VolumeStep | src/api/coingecko.ts:113-116 | one volume step keeps every day's volume equal to the sum of its volumes so far |
| CoinGecko.ToMetrics | src/api/coingecko.ts:119-126 | a finished day keeps its date, symbol and OHLC, its volume or 0, no volatility, and (close/open - 1)*100 equals the change percent (close - open)/open*100 |
| CoinGecko.Records | src/api/coingecko.ts:119-126 | one record per day in the order the days were first seen, the record at position a being the finished day days[a] |
| CoinGecko.ToMetricsIsDayRecord | src/api/coingecko.ts:119-126 | a finished accumulator becomes the day record of its day (change (close/open-1)*100, missing volume 0) |
| CoinGecko.RecordsAreDayRecords | src/api/coingecko.ts:119-126 | every record built is the day record of its own day, and the records' dates are the distinct days |
| CoinGecko.TransformCoinGeckoData | src/api/coingecko.ts:80-129 | the result holds exactly one day record per distinct UTC day of the prices, strictly ascending by date |
| CoinGecko.FetchCoinData | src/api/coingecko.ts:35-78 | the request is the range request; unsupported instrument, inherited name (invalid format), API failure and empty prices each give their error; otherwise the transform's records |
| CryptoService.Delay | src/services/api/cryptoService.ts:66-72 | no wait once 1200 ms have passed, otherwise the wait that makes up 1200 ms |
| CryptoService.DelaySpacesRequests | src/services/api/cryptoService.ts:65-76 | a request sent after the wait is at least 1200 ms after the last one |
| CryptoService.RateLimiter.Arrive | src/services/api/cryptoService.ts:66-72 | the part before the await: returns the wait for the time elapsed since the last stamp, changing nothing |
| CryptoService.RateLimiter.Stamp | src/services/api/cryptoService.ts:74 | the part after the await: stamps the limiter with the send time |
| CryptoService.RateLimiter.HandleRateLimit | src/services/api/cryptoService.ts:65-76 | for a request no other overlaps: returns the wait, records the send time, and the send is at least 1200 ms after the previous one |
| CryptoService.OverlappingRequestsLeaveTogether | src/services/api/cryptoService.ts:65-76 | two requests that arrive within 1200 ms of the same stamp and each wait exactly their delay leave at the same instant |
| CryptoService.OverlappingRequestsExample | src/services/api/cryptoService.ts:65-76 | on one limiter, B arriving at 100 and C at 200 after A left at 0 wait 1100 and 1000 ms and leave 0 ms apart |
| CryptoService.ApiErrorMessage | src/services/api/cryptoService.ts:81-113 | no response gives the network message; a request that could not be set up gives "Request error: " followed by its own message |
| CryptoService.ApiErrorMessageCases | src/services/api/cryptoService.ts:81-102 | 429, 404 and 500 get their fixed messages and only they do; any other status gives "API error: ", the status digits, " - " and the server's error text, or "Unknown error" when it is missing or empty |
| CryptoService.GroupPrices | src/services/api/cryptoService.ts:167-178 | after the price loop each day seen lists its prices and timestamps in input order, with no volumes yet; the keys are the days in first-seen order |
| CryptoService.PriceStep | src/services/api/cryptoService.ts:171-177 | one price step keeps the grouping invariant |
| CryptoService.AddVolumes | src/services/api/cryptoService.ts:181-189 | after the volume loop each priced day lists its volumes in input order; volumes of other days are dropped |
| CryptoService.VolumeStep | src/services/api/cryptoService.ts:185-188 | one volume step keeps the volume invariant |
| CryptoService.SortDaysAscending | src/services/api/cryptoService.ts:193 | the key sort of distinct days is ascending and keeps exactly the same days |
| CryptoService.BuildRecords | src/services/api/cryptoService.ts:192-220 | the loop pushes, for each sorted date, the record of open, close, high, low, volume sum and change of that day |
| CryptoService.ListsRecordIsDayRecord | src/services/api/cryptoService.ts:202-219 | a finished day's record is the day record: first and last price, max and min, volume sum, change (close-open)/open*100, no volatility |
| CryptoService.MarketRecordsDates | src/services/api/cryptoService.ts:193-222 | records built from ascending dates are strictly ascending by date and carry exactly those dates |
| CryptoService.RecordsOfPasses | src/services/api/cryptoService.ts:167-222 | after both loops, the records of the sorted dates are one day record per UTC day of the prices, sorted by date |
| CryptoService.TransformMarketData | src/services/api/cryptoService.ts:149-223 | empty prices give "No price data received from API"; otherwise one day record per UTC day of the prices, strictly ascending by date |
| PricePoints.ErrorOrUnknown | src/api/coingecko.ts:69 | the error text when present and non-empty, else "Unknown error" |
| PricePoints.PointsOnDays | src/api/coingecko.ts:87-92 | a day has points exactly when it is one of the points' days |
| PricePoints.ChangePercentAsRatio | src/api/coingecko.ts:120 | (close/open - 1)*100 equals (close - open)/open*100, so both providers compute the same change |
| PricePoints.DayRecordRange | src/api/coingecko.ts:103-105 | a day record has low <= open, close <= high |
| PricePoints.SinglePriceDay | src/services/api/__tests__/cryptoService.test.ts:43-56 | a day with one price has open = high = low = close and change 0 |
| PricePoints.SortDistinctDates | src/services/api/cryptoService.ts:222 | records with distinct dates sort into strictly ascending order with the same records and dates |
| ExportService.CsvContent | src/utils/exportService.ts:8-42 | no CSV exactly when there are no records |
| ExportService.HeaderSplits | src/utils/exportService.ts:15-28 | the header row splits on commas into exactly Date, Open, High, Low, Close, Volume, Change %, Volatility |
| ExportService.FixedCells | src/utils/exportService.ts:31-36 | one toFixed text per number, in order |
| ExportService.Cells | src/utils/exportService.ts:29-38 | one cell per header, in header order: the ISO date, the six numbers to two decimals, the volatility cell |
| ExportService.CellsArePlain | src/utils/exportService.ts:29-38 | a row has 8 cells and none holds a comma or a line break |
| ExportService.Row | src/utils/exportService.ts:29-38 | every data row splits on commas back into its cells and holds no line break |
| ExportService.VolatilityCell | src/utils/exportService.ts:37 | the volatility cell is empty exactly when the volatility is missing or 0 |
| ExportService.Rows | src/utils/exportService.ts:29-38 | exactly one row per record |
| ExportService.CsvLines | src/utils/exportService.ts:27-42 | the CSV splits on line breaks into the header followed by one row per record, so there are records + 1 lines |
| ExportService.LinesHaveNoBreak | src/utils/exportService.ts:27-39 | no line holds a line break |
| FilterPanel.ActiveFiltersCount | src/components/common/FilterPanel.tsx:140-149 | the count is at most 6, and 0 exactly when none of the six counted filters is set |
| FilterPanel.CountIgnoresInstrumentAndThreshold | src/components/common/FilterPanel.tsx:140-149 | the instrument and the volatility threshold never change the count |
| FilterPanel.ViewModeFor | src/components/common/FilterPanel.tsx:110-123 | week iff lastWeek; month iff lastMonth, lastQuarter or lastYear; day otherwise |
| FilterPanel.ApplyChangesOneField | src/components/common/FilterPanel.tsx:101-102 | a change alters only the field it names |
| FilterPanel.Panel.HandleFilterChange | src/components/common/FilterPanel.tsx:101-124 | the named field is set, the instrument follows an instrument change, the view mode follows a time-period change, and nothing else changes |
| FilterPanel.Panel.ClearAllFilters | src/components/common/FilterPanel.tsx:126-138 | the filters return to the defaults with the current instrument, so the count is 0 |
| FilterPanel.Panel.constructor | src/components/common/FilterPanel.tsx:50-60 | the panel starts collapsed with the default filters, so the count is 0 |
| FilterPanel.Panel.ToggleExpanded | src/components/common/FilterPanel.tsx:50 | flips the expanded flag and nothing else |
| FilterPanel.GetFilteredData | src/components/common/FilterPanel.tsx:151-199 | the successive filters keep exactly the records every filter admits, in input order |
| FilterPanel.AdmittedRecords | src/components/common/FilterPanel.tsx:151-199 | the result is an order-preserving subsequence; all records pass when no filter is active; with a display threshold every change is at least it; both sign switches give nothing; high volatility keeps only defined non-zero volatilities at least the threshold |
| FilterPanel.PeriodStart | src/components/common/FilterPanel.tsx:156-172 | the period starts on the day StartDay names, at the same time of day as now; any other period starts at now |
| FilterPanel.StartDay | src/components/common/FilterPanel.tsx:156-172 | the same date of the month one, three or twelve months back counted from the first of that month (so it rolls over past the month's end), seven dates back for the last week, the day itself otherwise |
| Dates.MakeDay | src/components/common/FilterPanel.tsx:156-172 | a month in 0..11 counts the date from the first of that month of the year; a month in -12..-1 from the first of month+12 of the year before |
| MetricsPanel.ShortDate | src/components/dashboard/MetricsPanel.tsx:98 | the UTC month abbreviation, a space, then the day of the month without leading zeros, reading back to that day |
| FilterPanel.LastWeekStart | src/components/common/FilterPanel.tsx:156-162 | the last-week period starts exactly seven days before now |
| FilterPanel.Abs | src/components/common/FilterPanel.tsx:180 | the absolute value is non-negative and equals x or -x |
| MetricsPanel.SelectedMetrics | src/components/dashboard/MetricsPanel.tsx:64-73 | nothing without a selected date; otherwise the first record whose date is the selected date, or nothing when none is |
| MetricsPanel.FirstOnDate | src/components/dashboard/MetricsPanel.tsx:67-72 | the index found is the first record on the day, or the length when there is none |
| MetricsPanel.OnDateIsSameText | src/components/dashboard/MetricsPanel.tsx:68-71 | comparing day numbers is the same as comparing YYYY-MM-DD strings |
| MetricsPanel.BuildDayMap | src/components/dashboard/MetricsPanel.tsx:81-86 | the loop builds the day map of the records |
| MetricsPanel.DayMap | src/components/dashboard/MetricsPanel.tsx:81-86 | every record's day is a key, and each key maps to a record of that day |
| MetricsPanel.DayMapKeepsLast | src/components/dashboard/MetricsPanel.tsx:82-86 | the last record of a day is the one the map keeps |
| MetricsPanel.WeeklyData | src/components/dashboard/MetricsPanel.tsx:75-107 | empty without a selected date or data; otherwise the points of the recorded days among the seven ending at the selected day, oldest first; at most 7 |
| MetricsPanel.LoopCollectsWeek | src/components/dashboard/MetricsPanel.tsx:89-106 | reversing what the backwards loop collects gives the week's points in date order |
| MetricsPanel.ReversedCollectedDays | src/components/dashboard/MetricsPanel.tsx:89-106 | the days the backwards loop visits, reversed, are the recorded days of the window in ascending order |
| MetricsPanel.WindowDays | src/components/dashboard/MetricsPanel.tsx:89-104 | the recorded days of a window, ascending, each inside the window, and every recorded day of the window among them |
| MetricsPanel.WeekFromRecords | src/components/dashboard/MetricsPanel.tsx:75-107 | every week point is for a day within six days before the selected day, from a record of that day, in ascending date order, and every record in that range is represented |
| MetricsPanel.FormatPercent | src/components/dashboard/MetricsPanel.tsx:115 | N/A iff undefined; otherwise ends in %, starts with + iff positive and with - iff negative |
| MetricsPanel.FormatVolume | src/components/dashboard/MetricsPanel.tsx:116-122 | N/A iff undefined; suffix B iff >= 1e9, M iff in [1e6,1e9), K iff in [1e3,1e6), a digit iff below 1e3 |
| MetricsPanel.Drawer.SelectDate | src/components/dashboard/MetricsPanel.tsx:229 | selecting a date opens the drawer |
| MetricsPanel.Drawer.HandleClose | src/components/dashboard/MetricsPanel.tsx:109-111 | closing clears the selected date, so the drawer is closed and no metrics are selected |
| Dates.CivilRoundTrip | src/api/coingecko.ts:88-89 | the civil date of a day number converts back to the same day |
| Dates.IsoDateInjective | src/api/coingecko.ts:88-89 | two days have the same YYYY-MM-DD key exactly when they are the same day |
| Dates.DayOfTimestamp | src/api/coingecko.ts:88-89 | the UTC day holding a millisecond timestamp |
| Dates.MidnightMs | src/components/dashboard/MetricsPanel.tsx:83-85 | UTC midnight of a day lies in that day |
| Dates.IsoDate | src/api/coingecko.ts:89 | the ISO date text holds no comma or line break |
| Text.JoinSplit | src/utils/exportService.ts:42 | splitting a text and joining it back gives the text |
| Text.SplitJoin | src/utils/exportService.ts:42 | joining parts free of the separator and splitting again gives the parts |
| Text.SplitLength | src/api/coingecko.ts:27-28 | a split has one more part than there are separators |
| Text.ParseNatToString | src/services/api/cryptoService.ts:99 | the decimal digits of a number read back as that number |
| Text.ToFixed | src/utils/exportService.ts:31-37 | fixed-point text is digits with an optional sign and point, ends in a digit, and starts with - iff negative |
| Common.WhereIsSubsequence | src/components/common/FilterPanel.tsx:174-197 | a filter keeps an order-preserving subsequence of its input |
| Common.WhereWhere | src/components/common/FilterPanel.tsx:174-197 | two successive filters are one filter by the conjunction |
| Common.VarianceZeroIff | src/utils/volatilityService.ts:45-47 | the population variance is non-negative, and 0 exactly when every value is the mean |
| Common.MeanBounds | src/utils/technicalIndicators.ts:40-41 | a mean lies between the bounds of its values |
| Common.MaxOf | src/utils/monthlyAggregationService.ts:42-46 | the maximum is one of the values and no value exceeds it |
| Common.MinOf | src/utils/monthlyAggregationService.ts:43-47 | the minimum is one of the values and no value is below it |

## Left out

- HTTP and async plumbing are not modelled: the axios instances and interceptors, `fetchHistoricalData`, `getAvailableCoins`, `validateCoinId`, and the GET in `fetchCoinData`. `CoinGecko.FetchCoinData` takes the provider's response as a parameter.
- CoinGecko.FetchCoinData: the `timeframe` argument is not modelled, because the source never reads it.
- CryptoService.RateLimiter.HandleRateLimit: the clock readings before and after the `setTimeout` wait are parameters (`now`, `sent`). Its `requires` says the second reading comes after the wait.
- CryptoService.RateLimiter.HandleRateLimit: the 1200 ms spacing is proved only for a request that no other request overlaps. Overlapping requests (several fetches started while one is pending) run `Arrive` before either runs `Stamp`, and `OverlappingRequestsLeaveTogether` and `OverlappingRequestsExample` show that they can leave at the same instant.
- IEEE NaN and Infinity are preconditions instead of values. This covers a flat RSI window, where both averages are zero and the source computes 0/0 (`RsiDefined` excludes every series with such a window), a zero previous close in the daily returns (`PrevClosesNonZero`), and a zero open in the change percent (`OpensNonZero`). A zero average loss with a positive average gain is modelled: RSI is then exactly 100, as `100 - 100 / Infinity` is in the source.
- The square root is a parameter; `IsSqrt` says it is non-negative and squares back. Floating-point rounding is not modelled anywhere, because prices are exact reals.
- Text.ToFixed: the model does not reproduce the rounding digits of `toFixed`, only the shape of its output (sign, digits, point); and it always renders fixed-point text, where JavaScript's `toFixed` switches to exponential text such as `1e+21` for magnitudes of 10^21 and above.
- Text.Lower: folds only the ASCII letters 'A'..'Z', where `toLowerCase` lowercases every Unicode letter, so a quote such as `ÄBC` keeps its `Ä`; the supported instruments are all ASCII.
- `toLocaleString` output is not modelled: `formatCurrency` and `formatDate`. MetricsPanel.FormatVolume and MetricsPanel.FormatPercent state the suffix and sign rules, not the exact digits. The short week-point date label is modelled by `MetricsPanel.ShortDate` (`MMM D` in UTC).
- Default arguments are not modelled: `windowSize = 30` in `calculateVolatility`, `period = 14` in `calculateRSI`, the MACD periods 12, 26 and 9, and the Bollinger period 20 and multiplier 2. The modelled calculators take them as explicit arguments, and `TechnicalIndicators.CalculateAllIndicators` passes 14, 12, 26, 9, 20 and 2 explicitly, as the source does. A caller that relies on a default is not modelled. Only the cache's default TTL has a member, `PerformanceCache.Cache.SetDefault`.
- PerformanceCache.Cache.Has: the source tests `get(key) !== null`, so a live entry whose stored data is itself `null` answers false there. The model has no `null` data, so `Has` answers true for every live entry.
- CoinGecko.ToMetrics: the source builds each record with `...dayData`, which also copies the day's `prices` array onto the record. The model's `DailyMetrics` has no such field, so the record drops it.
- Time zones are not modelled; every date is a UTC day. Two consequences:
  - `monthlyAggregationService.ts` keys months with date-fns `format`, which uses local time. The model keys months by UTC calendar month.
  - `getFilteredData` compares against local-time `setDate`/`setMonth`. The model uses the UTC calendar.
- FilterPanel.GetFilteredData: the two `new Date()` calls are one clock reading `now`.
- CryptoService.SortDaysAscending: the source's `keys.sort()` compares `YYYY-MM-DD` strings. The model sorts day numbers, which is the same order for four-digit years.
- Record dates are day numbers, so the string-or-number `date` field of `DailyMetrics` is not modelled. `MetricsPanel.SelectedMetrics` takes the selected date as a day number; `OnDateIsSameText` says comparing day numbers and comparing date strings agree.
- JavaScript's `Array.prototype.sort` is modelled as a stable insertion sort (`Market.SortByDate`, `MonthlyAggregation.SortByKey`, `VolatilityService.SortReals`). In the monthly aggregation this is the in-place sort of each month's days.
- `calendarStore.ts` has no `viewMode` or `setViewMode`, although `FilterPanel.tsx` calls `setViewMode`. The model keeps the view mode as a field of the panel.
- FilterPanel's localStorage load and save effects are not modelled.
- The instrument-sync effect of FilterPanel is not modelled.
- The DOM download in `exportToCsv` and the `console.warn` on empty input are not modelled. `ExportService.CsvContent` returns `None` there.
- `marketDataStore.ts`, the rendering-only components, and theme persistence are not modelled.
- VolatilityService.CalculateVolatility: the returned array is a fresh sequence, so aliasing of the input array by the in-place sort is not modelled.
