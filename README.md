# rsiers core in Dafny

This project models the backend of a Bitcoin indicator service. The service
keeps a per-day OHLCV price store. It fills missing days from a priority
chain of sources: the bundled CSV files, then CoinGecko for the last 365
days, then Kraken. From that store it builds indicator snapshots for a
requested date:

- two years of daily bars are resampled into weekly bars (pandas `W-MON`,
  weeks ending on Monday) and monthly bars (`ME`);
- seven indicators are computed on each timeframe: RSI, Stochastic RSI, MFI,
  Connors RSI, Williams %R, RVI and an adaptive (KAMA-based) RSI;
- the last valid value of each indicator feeds two composite scores, the
  Composite Overbought Score (COS) and the Bull Strength Index (BSI);
- the price 1, 6 and 12 calendar months later gives the outcomes;
- the snapshot is cached per date, and a past date is always served from that
  cache, today only while its snapshot is less than an hour old.

The model also covers the older scorers the repository still ships: the
historical-metrics scripts, the browser's fallback scorer and the first
legacy RSI in `app.py`. It also covers the gap checker in `scripts/db_checker.py`.

## Layout

Each module follows one source file.

- `wrappers.dfy`: `Option` and `Result`, and the clamps.
- `calendar.dfy`: Python's proleptic Gregorian dates and day numbers.
- `records.dfy`: the dictionaries passed between modules.
- `db_utils.dfy`: ISO date keys and the `Database` class. Its two tables are
  maps with upsert writes.
- `csv_data_loader.dfy`, `api_clients.dfy`, `data_sources.dfy`: the price
  sources and the fetch chain.
- `config.dfy`: the constant tables.
- `series.dfy`: NaN-aware pandas column operations on `seq<Option<real>>`.
- `rsi.dfy`, `stochastic_rsi.dfy`, `mfi.dfy`, `connors_rsi.dfy`,
  `williams_r.dfy`, `rvi.dfy`, `adaptive_rsi.dfy`: the seven indicators.
- `indicator_calculator.dfy`: resampling and the indicator driver.
- `composite_metrics.dfy`, `legacy_scoring.dfy`, `frontend_composite.dfy`,
  `legacy_app.dfy`: the scorers.
- `outcome.dfy`, `indicator_service.dfy`: outcomes and the request flow.
- `db_checker.dfy`: the gap checker.

## Modelling conventions

- **Days.** A day is its number since 1970-01-01 UTC, and a timestamp is whole
  seconds since the epoch. Python's `date` range, 0001-01-01 to 9999-12-31,
  appears as `InPythonRange`. Python raises outside it.
- **NaN.** NaN and `None` are both `None` in an `Option<real>` column. Prices
  are exact reals.
- **JSON fields.** The legacy scripts index JSON dicts directly, so a missing
  key and a `null` value fail differently. Their inputs use a three-way
  `Field` (absent, `null`, present). The frontend's items reach the legacy
  comparison through `FrontendComposite.Lift`, which writes both side keys
  and turns NaN into `null`.
- **Entry keys are distinct.** The indicator entries are a sequence of
  key/value pairs standing for a JSON object or a Python dict, so the keys in
  them are distinct. A sequence that repeats a key stands for no input the
  code can receive.
- **Outside inputs are parameters.** The clock ("now") is a parameter. The CSV
  files and the two HTTP APIs arrive as the `Sources` value: the parsed files
  plus two reply oracles. A write that SQLite would refuse is the `writeOk`
  parameter; the code catches that error and logs it.
- **Loops stay loops.** Where the source loops or updates in place, the model
  is a method. Each such method is proved equal to a specification function,
  and the properties are lemmas about that function.

## Where the code departs from the textbook indicators

The model follows the code in each case below.

- **RSI with zero average loss.** Wilder's RSI is usually taken as 100 when
  the average loss is zero. The code divides by the loss after replacing 0
  with NaN, so the value is NaN (`backend/indicators/rsi.py:48`). See
  `Rsi.NonDecreasingUndefined`. `LegacyApp.LegacyAndBackendDiverge` shows
  that the legacy RSI gives 100 on the same input.
- **Weekly buckets.** Weekly bars are usually labelled by the Monday that
  starts the week. The code's `W-MON` rule labels each week by the Monday
  that ends it (`backend/indicator_calculator.py:101-105`, see
  `IndicatorCalculator.WeekEnd`).
- **Flat Stochastic RSI window.** A common convention reports the neutral
  midpoint when the RSI window is flat. The code gives NaN
  (`backend/indicators/stochastic_rsi.py:28`, see
  `StochasticRsi.FlatWindowUndefined`).
- **Flat RVI bar.** A common convention skips a bar whose high equals its
  low. The code's rolling mean needs every value in the window, so one flat
  bar makes that output NaN (`backend/indicators/rvi.py:19-25`, see
  `Rvi.FlatBarUndefined`).

## Model

| member | source | states |
|---|---|---|
| Records.Get | backend/db_utils.py:137-140 | `.get(k)` on an indicator dict: a missing key reads as None, a present key as its value |
| Calendar.Midnight | backend/data_sources.py:26 | the timestamp moved back to 00:00:00 UTC of its own day |
| Calendar.DayOfBounds | backend/db_utils.py:82 | a timestamp falls on day n exactly when it lies in that day's 86400 seconds, so `.date()` is the day number |
| Calendar.AddMonths | backend/services/outcome_service.py:34 | `+ DateOffset(months=k)` lands on a valid date exactly k months later, never on a later day of month than the anchor |
| Calendar.AddMonthsLater | backend/services/outcome_service.py:34 | a horizon of one or more months lands strictly after its anchor |
| Calendar.AddMonthsKeepsDay | backend/services/outcome_service.py:34 | the day of month is kept exactly when the target month is long enough, otherwise it is the target month's last day |
| Calendar.ToDayOrder | backend/services/outcome_service.py:37 | comparing dates and comparing day numbers agree |
| Calendar.DateRoundTrip | backend/db_utils.py:17-19 | day numbers and calendar dates correspond one to one |
| Calendar.FromDay | backend/db_utils.py:82 | the calendar date of a day number is a valid date that maps back to that day |
| DbUtils.DateToIsoString | backend/db_utils.py:13-15 | the text is ten characters `YYYY-MM-DD`: digits with dashes at positions 4 and 7 |
| DbUtils.IsoStringToDate | backend/db_utils.py:17-19 | whatever parses is a valid calendar date with a four-digit year |
| DbUtils.IsoRoundTrip | backend/db_utils.py:13-19 | parsing a formatted date gives the date back |
| DbUtils.IsoParseRoundTrip | backend/db_utils.py:13-19 | a string that parses is exactly the formatting of the date it parses to |
| DbUtils.DayKey | backend/db_utils.py:82 | the `date_str` key of a day is ten characters long |
| DbUtils.DayKeyInjective | backend/db_utils.py:82-92 | two days share a key if and only if they are the same day, so a table keyed by `date_str` holds one row per day |
| DbUtils.DayKeyParses | backend/db_utils.py:17-19 | parsing a stored key gives back the key's day |
| DbUtils.SameDaySameKey | backend/db_utils.py:105 | two timestamps map to the same key if and only if they fall on the same UTC day |
| DbUtils.DailyRowOf | backend/db_utils.py:84-92 | the row written carries the day, the five values and the source unchanged, and `fetched_at` is the current time |
| DbUtils.FlattenSnapshot | backend/db_utils.py:122-147 | the snapshot row carries the day, the price at the event and `calculated_at` as the current time |
| DbUtils.UpsertThenLookup | backend/db_utils.py:84-92 | after a successful write the day holds the new row; every other day keeps its presence and its row |
| DbUtils.UpsertReplaces | backend/db_utils.py:85 | a second write for the same day replaces the first |
| DbUtils.Database.constructor | backend/db_utils.py:21-33 | both tables start empty |
| DbUtils.Database.StoreDailyOhlcv | backend/db_utils.py:78-98 | the daily table becomes the upsert of the row for the timestamp's day (unchanged when the write fails and is caught); the snapshot table is untouched |
| DbUtils.Database.GetDailyOhlcv | backend/db_utils.py:101-113 | a row is returned if and only if the timestamp's day is stored, and it is that day's row |
| DbUtils.Database.StoreFullIndicatorSet | backend/db_utils.py:116-153 | the snapshot table becomes the upsert of the flattened snapshot for the day (unchanged when the write fails); the daily table is untouched |
| DbUtils.Database.GetFullIndicatorSet | backend/db_utils.py:156-164 | a snapshot is returned if and only if the day has one, and it is that day's row |
| CsvDataLoader.Normalize | backend/csv_data_loader.py:72 | the normalised timestamp is a midnight on the same UTC day as the raw timestamp |
| CsvDataLoader.Clean | backend/csv_data_loader.py:60-72 | every row kept after `dropna` has a midnight timestamp |
| CsvDataLoader.CleanFromNumeric | backend/csv_data_loader.py:60-72 | every cleaned row is the normalisation of an input row whose six numeric columns all converted |
| CsvDataLoader.CleanKeepsNumeric | backend/csv_data_loader.py:67 | an input row whose six numeric columns convert is kept |
| CsvDataLoader.Gathered | backend/csv_data_loader.py:43-75 | the rows of all readable files, each at a midnight |
| CsvDataLoader.Find | backend/csv_data_loader.py:109-110 | `df.loc[t]` finds a row of the frame with timestamp t, and finds nothing exactly when no row has it |
| CsvDataLoader.FirstAt | backend/csv_data_loader.py:81 | the first loaded row with timestamp t has timestamp t |
| CsvDataLoader.InsertNew | backend/csv_data_loader.py:81 | adding a row keeps the frame strictly increasing, adds nothing else, and is a no-op for a timestamp already present |
| CsvDataLoader.Index | backend/csv_data_loader.py:81 | the indexed frame is strictly increasing (one row per timestamp) and holds only loaded rows |
| CsvDataLoader.IndexKeepsFirst | backend/csv_data_loader.py:81 | `drop_duplicates` keeps the first: the indexed row for a timestamp is the first loaded row with it |
| CsvDataLoader.Frame | backend/csv_data_loader.py:80-89 | the loaded frame is strictly increasing and every index entry is a midnight |
| CsvDataLoader.FirstOnDay | backend/csv_data_loader.py:115-117 | a row found for the day is in the frame and falls on that day |
| CsvDataLoader.Lookup | backend/csv_data_loader.py:94-130 | an answer needs a non-empty frame and a day inside the loaded range, and its source is `csv_exact` or `csv_day_match` |
| CsvDataLoader.DayMatchIsExact | backend/csv_data_loader.py:114-117 | on a frame of midnights the first row on a day is the row at that day's midnight |
| CsvDataLoader.DayMatchUnreachable | backend/csv_data_loader.py:114-120 | on a loaded frame every answer has source `csv_exact`: the same-day fallback never answers |
| CsvDataLoader.LookupIsFirstRowOfDay | backend/csv_data_loader.py:99-113 | inside the loaded range a day is answered if and only if some file holds a numeric row for it, and the answer is the first such row |
| CsvDataLoader.Loader.constructor | backend/csv_data_loader.py:37-89 | the frame is the indexed cleaned rows; the date range is unset for an empty frame and is the first and last index days otherwise |
| CsvDataLoader.Loader.GetOhlcvForDate | backend/csv_data_loader.py:94-130 | the answer is the lookup on the loaded frame and range |
| ApiClients.CgRecord | backend/api_clients.py:24-27 | a CoinGecko record has open = high = low = close = the USD price and source `coingecko` |
| ApiClients.CoinGeckoGetOhlcvForDate | backend/api_clients.py:13-45 | the attempt loop returns the run the retry specification describes: its record, its request count and its sleeps |
| ApiClients.CoinGeckoRunFacts | backend/api_clients.py:16-30 | at most `retries` requests; a record comes from a payload with a non-zero USD price on the last request made, mapped as above |
| ApiClients.CoinGeckoNoPriceNoRetry | backend/api_clients.py:28-30 | a payload without a price ends the run at once with no record and no further request |
| ApiClients.CoinGeckoRateLimitRetried | backend/api_clients.py:31-38 | a 429 before the last attempt sleeps `delay*attempt`, then `delay*(attempt+1)*2`, and tries again |
| ApiClients.CandlesOf | backend/api_clients.py:77-80 | a candle list is taken only under the pair key or its `XBT` spelling, and only when it is non-empty |
| ApiClients.ExactCandle | backend/api_clients.py:85-90 | the candle found is the first in the list opening exactly at the target; none is found only when no candle opens there |
| ApiClients.SameDayCandle | backend/api_clients.py:93-100 | the candle found is the first in the list opening on the target's UTC day; none is found only when no candle opens that day |
| ApiClients.Pick | backend/api_clients.py:85-103 | the record carries the first exact candle's values with source `kraken`; without one, and only when `since` lies before the target, the first same-day candle's values with source `kraken_adjusted_time`; None exactly when neither applies |
| ApiClients.KrakenGetOhlcvForDate | backend/api_clients.py:48-117 | the attempt loop returns the run the retry specification describes for the target's midnight |
| ApiClients.ScanCandles | backend/api_clients.py:85-103 | the two candle scans return the specified choice |
| ApiClients.SinceWidened | backend/api_clients.py:55-60 | the first attempt sends `since` = the target midnight; every later attempt sends one day earlier |
| ApiClients.Backoff | backend/api_clients.py:63 | one sleep per attempt in the range |
| ApiClients.KrakenRunFacts | backend/api_clients.py:54-117 | at most `retries` requests, sleeping `delay*2^k` before each attempt k > 0; a same-day fallback record needs a second request; every record's source is `kraken` or `kraken_adjusted_time` |
| ApiClients.KrakenRetried | backend/api_clients.py:62-111 | a rate-limit error, a retried HTTP status or a failed request before the last attempt leads to the next attempt, after the backoff pause when the attempt is not the first |
| ApiClients.KrakenNoCandlesNoRetry | backend/api_clients.py:79-83 | a reply with no candles for the pair ends the run with no record after that request: the retry branch for empty candles is unreachable |
| DataSources.Fetch | backend/data_sources.py:15-63 | the specified outcome of the chain; a failure carries the not-found message for the day |
| DataSources.FetchAndStoreDailyOhlcv | backend/data_sources.py:15-63 | returns the chain's outcome; a success is upserted under its day before returning, a failure stores nothing, and the snapshot table is untouched |
| DataSources.FetchFromApis | backend/data_sources.py:36-59 | after a CSV miss: CoinGecko only for a recent day, then Kraken, giving the specified API result |
| DataSources.CsvFirst | backend/data_sources.py:30-34 | a CSV hit is the answer and no API reply matters |
| DataSources.OldDaysSkipCoinGecko | backend/data_sources.py:39-52 | for a day more than 365 days ago or after today, the answer does not depend on CoinGecko at all |
| DataSources.KrakenLast | backend/data_sources.py:54-59 | when the CSV files or (for a recent day) CoinGecko answer, the answer does not depend on Kraken |
| DataSources.FetchSources | backend/data_sources.py:30-63 | a found record names a known source; the chain fails if and only if the CSV files, CoinGecko (when asked) and Kraken all give nothing |
| DataSources.CsvSource | backend/data_sources.py:30-34 | a CSV answer names a CSV source |
| DataSources.ApiSource | backend/data_sources.py:42-59 | an API answer names a CoinGecko or Kraken source |
| DataSources.DayEntry | backend/data_sources.py:76-87 | one day contributes at most one row, dated that day |
| DataSources.FillAt | backend/data_sources.py:76-87 | after one day of the loop: that day gains the fetched row only when it was absent, the fetch succeeded and the write went through; stored rows are kept |
| DataSources.FilledAt | backend/data_sources.py:75-87 | after the whole loop: each day of the window is stored if it was before or was fetched and written, stored rows are unchanged, and fetched rows are the rows written |
| DataSources.GetHistoricalDataForIndicators | backend/data_sources.py:66-104 | the rows are the window from `end - years*365` to the end day over the store as it was, and the store becomes that store filled with the fetched days |
| DataSources.FetchDayFetches | backend/data_sources.py:81 | the day fetcher used by the window is the orchestrator on each day |
| DataSources.CollectDays | backend/data_sources.py:75-87 | the loop's rows are the window over the old store, and the new store is the filled store |
| DataSources.CollectDay | backend/data_sources.py:76-87 | one pass adds the day's entry and makes the store one day more filled |
| DataSources.WindowAscending | backend/data_sources.py:89-104 | at most one row per day, all inside the range, in strictly ascending day order |
| DataSources.WindowHasDay | backend/data_sources.py:76-87 | a day of the range is in the window if and only if it was stored or the orchestrator finds it; failed days are omitted |
| DataSources.FilledKeepsStored | backend/data_sources.py:76-79 | a day already stored keeps its row: it is read, never refetched |
| DataSources.StoredBar | backend/data_sources.py:78-85 | a stored row yields the same bar as the record it was made from |
| DataSources.RefetchSameWindow | backend/data_sources.py:66-104 | the rows the loop writes do not change the window: a second call reads back the same rows |
| DataSources.FilledEntry | backend/data_sources.py:76-87 | on each day of the range, the filled store contributes the same entry as the original store |
| IndicatorCalculator.LastValid | backend/indicator_calculator.py:22-28 | a value is returned if and only if some element is defined, and it is the last defined element |
| IndicatorCalculator.LastValidWithin | backend/indicator_calculator.py:22-28 | the last valid value keeps any bound every defined element keeps |
| IndicatorCalculator.LastValidBelow | backend/indicator_calculator.py:22-28 | the last valid value keeps any strict upper bound every defined element keeps |
| IndicatorCalculator.CoerceRule | backend/indicator_calculator.py:94-98 | `W-MON` and `ME` are kept; an invalid rule becomes `ME` exactly when it contains an M of either case, otherwise `W-MON` |
| IndicatorCalculator.WeekEnd | backend/indicator_calculator.py:101-105 | a day's `W-MON` bucket label is the first Monday on or after it |
| IndicatorCalculator.MonthEndOf | backend/indicator_calculator.py:101-105 | a day's `ME` bucket label is the last day of its calendar month |
| IndicatorCalculator.Label | backend/indicator_calculator.py:101-105 | a day's bucket label is never before the day |
| IndicatorCalculator.LabelMonotone | backend/indicator_calculator.py:101-105 | later days never get earlier bucket labels |
| IndicatorCalculator.InsertByDay | backend/indicator_calculator.py:90-92 | inserting one row keeps the frame sorted and adds exactly that row |
| IndicatorCalculator.SortByDay | backend/indicator_calculator.py:90-92 | `sort_index` gives a sorted permutation of the rows |
| IndicatorCalculator.SortKeepsRange | backend/indicator_calculator.py:90-92 | sorting keeps every day inside the calendar range |
| IndicatorCalculator.Aggregate | backend/indicator_calculator.py:101-105 | a bucket's bar has the first open, the last close, a high and a low attained by some day and bounding every day, and the summed volume |
| IndicatorCalculator.LabelsOf | backend/indicator_calculator.py:101-105 | one label per row, each the row's bucket label |
| IndicatorCalculator.SortedLabels | backend/indicator_calculator.py:101-105 | the labels of a sorted frame are non-decreasing |
| IndicatorCalculator.Buckets | backend/indicator_calculator.py:100-112 | never more output bars than input rows |
| IndicatorCalculator.SortedFrame | backend/indicator_calculator.py:90-92 | the frame resampled is a sorted permutation of the input, still in range |
| IndicatorCalculator.BucketsAscending | backend/indicator_calculator.py:100-112 | output bars are in strictly ascending label order |
| IndicatorCalculator.BucketsAggregate | backend/indicator_calculator.py:100-112 | each output bar is the aggregate of exactly the rows carrying its label, and that group is non-empty |
| IndicatorCalculator.BucketsCover | backend/indicator_calculator.py:100-112 | every input row's label has an output bar: no non-empty bucket is dropped |
| IndicatorCalculator.ResampleCorrect | backend/indicator_calculator.py:82-119 | empty input gives empty output; otherwise the output is ascending, each bar aggregates exactly its bucket's days, and every non-empty bucket appears |
| IndicatorCalculator.MergeWellFormed | backend/indicator_calculator.py:101-105 | merging two bars with low <= open, close <= high keeps that shape |
| IndicatorCalculator.BucketsWellFormed | backend/indicator_calculator.py:101-105 | well-formed daily bars give well-formed resampled bars |
| IndicatorCalculator.BarsOf | backend/indicator_calculator.py:131-137 | the bars of the frame, in order |
| IndicatorCalculator.Param | backend/indicator_calculator.py:34-77 | a parameter is the merged configuration's value when present, otherwise the call's default, and is positive |
| IndicatorCalculator.RankLength | backend/indicator_calculator.py:52-56 | the Connors rank length is at least 1 and at most min(cfg, max(5, n-10)) monthly and min(cfg, max(10, n-10)) weekly |
| IndicatorCalculator.SeriesFor | backend/indicator_calculator.py:144-152 | each indicator series has one entry per bar |
| IndicatorCalculator.CrsiGatePassesOnResampledFrames | backend/indicator_calculator.py:52-61 | on a monthly or weekly frame past the minimum bar gate, the adjusted rank length leaves Connors RSI enough bars |
| IndicatorCalculator.RsiWithin | backend/indicators/rsi.py:48-49 | every defined RSI lies in [0, 100) |
| IndicatorCalculator.AdaptiveRsiWithin | backend/indicators/adaptive_rsi.py:85-98 | every defined adaptive RSI lies in [0, 100] |
| IndicatorCalculator.SeriesWithinBounds | backend/indicator_calculator.py:144-152 | on well-formed bars each of the seven series stays inside its indicator's range |
| IndicatorCalculator.NoneIndicators | backend/indicator_calculator.py:128 | exactly the seven keys, each None |
| IndicatorCalculator.Indicators | backend/indicator_calculator.py:122-158 | the result always has exactly the seven indicator keys |
| IndicatorCalculator.LatestMap | backend/indicator_calculator.py:154-155 | exactly the seven keys, each the last valid value of its series |
| IndicatorCalculator.CalculateIndicators | backend/indicator_calculator.py:122-158 | the loop over the series dict fills the specified indicator map |
| IndicatorCalculator.IndicatorsWithinBounds | backend/indicator_calculator.py:144-158 | on well-formed bars every reported value lies within its indicator's range, and a reported RSI lies in [0, 100) |
| IndicatorCalculator.TooFewBarsGiveNone | backend/indicator_calculator.py:126-141 | fewer than the minimum bar count, or all closes NaN, gives None for all seven keys |
| IndicatorCalculator.ReportedIffDefined | backend/indicator_calculator.py:144-158 | past the gates, a key is reported if and only if its series has a defined element |
| Config.GetIndicatorParams | backend/config.py:94-109 | the keys are the defaults' and the timeframe entry's; overridden fields take the timeframe value and the rest keep the default |
| Config.ParamOr | backend/indicator_calculator.py:35 | `params.get(name, default)`: the value when present, the default otherwise |
| Config.UnknownTimeframeGivesDefaults | backend/config.py:98-101 | an unknown or empty timeframe returns the defaults unchanged |
| Config.UnknownKeyGivesEmpty | backend/config.py:98 | an unknown indicator key returns an empty dict |
| Config.DefaultsPositive | backend/config.py:18-26 | every default parameter is positive |
| Config.OverridesPositive | backend/config.py:30-44 | every override is positive |
| Config.ParamsPositive | backend/config.py:94-109 | every merged parameter is positive |
| Config.CrsiRankLenOverrides | backend/config.py:22-41 | the configured Connors rank length is 12 monthly, 50 weekly and 100 otherwise |
| Config.CrsiShortAndStreak | backend/config.py:22-41 | Connors short and streak lengths are 3 and 2 on every timeframe |
| Config.StochRsiOverrides | backend/config.py:20-32 | the stochastic period is 7 monthly and 14 weekly |
| Config.CompositeTablesCoverIndicators | backend/config.py:47-75 | weights, thresholds and neutral points cover exactly the seven indicator keys |
| Config.WeightsSumToOne | backend/config.py:47-55 | every weight is positive and the weights sum to 1.0 |
| Config.ThresholdAboveNeutral | backend/config.py:57-75 | for every key, threshold minus neutral point is positive |
| Series.Closes | backend/indicators/rsi.py:16 | the close column, one defined value per bar |
| Series.Highs | backend/indicators/williams_r.py:18 | the high column, one defined value per bar |
| Series.Lows | backend/indicators/williams_r.py:19 | the low column, one defined value per bar |
| Series.NoneSeries | backend/indicators/rsi.py:14 | an all-NaN series of the frame's length |
| Series.DiffSeries | backend/indicators/rsi.py:21 | `diff()`: NaN first, then each value minus the previous, NaN when either is NaN |
| Series.CountSome | backend/indicators/stochastic_rsi.py:20 | `len(dropna())` never exceeds the length |
| Series.CountSomeAllNone | backend/indicators/stochastic_rsi.py:16-20 | no defined value if and only if the series is all NaN |
| Series.SumSomeBounds | backend/indicators/rvi.py:25 | a NaN-skipping sum of values within [lo, hi] lies within count*lo and count*hi |
| Series.MeanSkipNaBounds | backend/indicators/rsi.py:36-37 | a NaN-skipping mean of values within [lo, hi] stays within [lo, hi] |
| Series.MeanSkipNaNonNegative | backend/indicators/rsi.py:36-37 | the mean of non-negative values is non-negative |
| Series.MeanSkipNaZero | backend/indicators/rsi.py:36-37 | the mean of zeros is zero |
| Series.Window | backend/indicators/stochastic_rsi.py:24-25 | the trailing window of w values ending at i |
| Series.MinOf | backend/indicators/stochastic_rsi.py:24 | the window minimum is attained and bounds every value |
| Series.MaxOf | backend/indicators/stochastic_rsi.py:25 | the window maximum is attained and bounds every value |
| Series.RollingMin | backend/indicators/williams_r.py:19 | `rolling(w, min_periods=w).min()`: defined exactly where the trailing window is full and defined |
| Series.RollingMax | backend/indicators/williams_r.py:18 | `rolling(w, min_periods=w).max()`: defined exactly where the trailing window is full and defined |
| Series.RollingSum | backend/indicators/mfi.py:44-45 | `rolling(w, min_periods=w).sum()`: defined exactly where the trailing window is full and defined |
| Series.RollingMean | backend/indicators/rvi.py:25 | `rolling(w, min_periods=w).mean()`: defined exactly where the trailing window is full and defined |
| Series.RollingMeanBounds | backend/indicators/rvi.py:25 | a rolling mean of values within [lo, hi] stays within [lo, hi] |
| Rsi.GainOf | backend/indicators/rsi.py:24-27 | a gain is defined with its delta, non-negative, and equals a non-negative delta |
| Rsi.LossOf | backend/indicators/rsi.py:25-29 | a loss is defined with its delta, non-negative, and is the magnitude of a non-positive delta |
| Rsi.Gains | backend/indicators/rsi.py:24-27 | the gain series is non-negative, one entry per close |
| Rsi.Losses | backend/indicators/rsi.py:25-29 | the loss series is non-negative, one entry per close |
| Rsi.Averages | backend/indicators/rsi.py:31-46 | a period of zero gives NaN averages |
| Rsi.RsiOf | backend/indicators/rsi.py:48-49 | defined exactly when both averages are and the average loss is non-zero; then RSI = 100g/(g+l), in [0, 100) |
| Rsi.AveragesNonNegative | backend/indicators/rsi.py:36-46 | the smoothed averages of non-negative gains and losses stay non-negative |
| Rsi.RsiSeries | backend/indicators/rsi.py:8-51 | one RSI value per close |
| Rsi.SmoothedAverages | backend/indicators/rsi.py:31-46 | the loop leaves NaN before index `period` and the specified Wilder averages from there on |
| Rsi.Calculate | backend/indicators/rsi.py:8-51 | the computed series is the specified RSI series |
| Rsi.RsiRange | backend/indicators/rsi.py:48-49 | every defined RSI lies in [0, 100) |
| Rsi.RsiDefinedIff | backend/indicators/rsi.py:12-49 | an RSI value is defined if and only if the gates pass, the index is at least `period`, and both averages are defined with a non-zero average loss |
| Rsi.AveragesStayUndefined | backend/indicators/rsi.py:41-44 | once an average is NaN every later one is NaN |
| Rsi.AverageLossZero | backend/indicators/rsi.py:36-46 | all-zero losses keep the average loss at zero |
| Rsi.NonDecreasingUndefined | backend/indicators/rsi.py:48 | a never-falling close series has no defined RSI: zero average loss is NaN, never 100 |
| StochasticRsi.RawK | backend/indicators/stochastic_rsi.py:28 | raw %K is defined exactly when the three inputs are and the window is not flat; within the window range it lies in [0, 100] |
| StochasticRsi.RawKSeries | backend/indicators/stochastic_rsi.py:24-28 | one raw %K per RSI value |
| StochasticRsi.StochRsiSeries | backend/indicators/stochastic_rsi.py:9-32 | one smoothed value per close |
| StochasticRsi.RawKRange | backend/indicators/stochastic_rsi.py:24-28 | every defined raw %K lies in [0, 100] |
| StochasticRsi.StochRsiRange | backend/indicators/stochastic_rsi.py:28-31 | every defined smoothed value lies in [0, 100] |
| StochasticRsi.FlatWindowUndefined | backend/indicators/stochastic_rsi.py:28 | a flat RSI window gives NaN, not 50 |
| StochasticRsi.SmoothedDefinedIff | backend/indicators/stochastic_rsi.py:31 | a smoothed value is defined if and only if all `k_smooth` raw values in its window are |
| StochasticRsi.TooFewRsiValues | backend/indicators/stochastic_rsi.py:16-22 | fewer than `stoch_period` defined RSI values gives an all-NaN result |
| WilliamsR.PercentR | backend/indicators/williams_r.py:23-26 | defined exactly when both extremes are and the range is not flat; with the close inside the range it lies in [-100, 0] |
| WilliamsR.WilliamsRSeries | backend/indicators/williams_r.py:8-27 | one value per bar |
| WilliamsR.PercentRAt | backend/indicators/williams_r.py:18-26 | past the gate, each value is %R of the rolling highest high, rolling lowest low and the close |
| WilliamsR.WilliamsRRange | backend/indicators/williams_r.py:23-26 | on well-formed bars every defined value lies in [-100, 0] |
| WilliamsR.WilliamsRDefinedIff | backend/indicators/williams_r.py:14-26 | a value is defined if and only if there are enough bars, the window is full and its highest high differs from its lowest low |
| WilliamsR.TooFewBars | backend/indicators/williams_r.py:14-16 | fewer than `period` bars gives an all-NaN result |
| Rvi.Vigor | backend/indicators/rvi.py:18-21 | the per-bar value is defined exactly when high differs from low, and lies in [-1, 1] on a well-formed bar |
| Rvi.VigorSeries | backend/indicators/rvi.py:18-21 | one per-bar value per bar |
| Rvi.RviSeries | backend/indicators/rvi.py:8-26 | one value per bar |
| Rvi.RviRange | backend/indicators/rvi.py:18-25 | on well-formed bars every defined value lies in [-1, 1] |
| Rvi.FlatBarUndefined | backend/indicators/rvi.py:19-25 | a flat bar anywhere in the window makes that output NaN |
| Mfi.PositiveFlow | backend/indicators/mfi.py:33-41 | a bar carries positive flow only when its typical price rose from the previous bar |
| Mfi.NegativeFlow | backend/indicators/mfi.py:33-42 | a bar carries negative flow only when its typical price fell from the previous bar |
| Mfi.PositiveFlows | backend/indicators/mfi.py:35-41 | the positive flow column is defined everywhere (zero-initialised), one entry per bar |
| Mfi.NegativeFlows | backend/indicators/mfi.py:36-42 | the negative flow column is defined everywhere (zero-initialised), one entry per bar |
| Mfi.Reference | backend/indicators/mfi.py:47-66 | the textbook MFI of two non-negative flow sums: in [0, 100], 100 with no negative flow, 0 with no positive flow, 50 with neither |
| Mfi.MfiOf | backend/indicators/mfi.py:47-66 | defined exactly when both sums are and not (zero negative flow with negative positive flow); always within [0, 100] after the clip; equals the reference on non-negative sums |
| Mfi.MfiSeries | backend/indicators/mfi.py:12-67 | one value per bar |
| Mfi.MfiAt | backend/indicators/mfi.py:44-66 | past the gates, each value is the MFI of the rolling positive and negative flow sums |
| Mfi.FlowsExclusive | backend/indicators/mfi.py:38-42 | no bar carries both positive and negative flow |
| Mfi.MfiRange | backend/indicators/mfi.py:66 | every defined value lies in [0, 100] |
| Mfi.MfiIsReference | backend/indicators/mfi.py:44-66 | on non-negative prices and volumes a full window gives exactly the reference MFI of its flow sums |
| Mfi.FlowsNonNegative | backend/indicators/mfi.py:31-42 | with non-negative prices and volumes, the positive and negative flow columns hold no negative value |
| Mfi.WarmUpUndefined | backend/indicators/mfi.py:44-45 | the first `period - 1` outputs are NaN |
| Mfi.FlatWindowScoresFifty | backend/indicators/mfi.py:57-60 | a window whose typical price never moves scores 50 |
| Mfi.TooFewBars | backend/indicators/mfi.py:18-20 | fewer than `period + 1` bars gives an all-NaN result |
| ConnorsRsi.StreakColumn | backend/indicators/connors_rsi.py:26-43 | the streak column is defined everywhere, one entry per close |
| ConnorsRsi.ForwardFill | backend/indicators/connors_rsi.py:47 | `pct_change` pads NaN closes: a defined value is kept |
| ConnorsRsi.PercentRankOfLast | backend/indicators/connors_rsi.py:52-55 | the average-method percentile rank of the last window value lies in (0, 100] |
| ConnorsRsi.PercentRankSeries | backend/indicators/connors_rsi.py:47-55 | the rolling rank is defined exactly where the window is full, and lies in [0, 100] |
| ConnorsRsi.MeanOfThree | backend/indicators/connors_rsi.py:57 | the average is defined exactly when all three parts are; three values in [0, 100] average into [0, 100] |
| ConnorsRsi.CrsiSeries | backend/indicators/connors_rsi.py:9-58 | one value per close |
| ConnorsRsi.Calculate | backend/indicators/connors_rsi.py:9-58 | the computed series, built by the streak loop, is the specified ConnorsRSI series |
| ConnorsRsi.CountsPartition | backend/indicators/connors_rsi.py:53 | in a window, the values below and equal to the last never exceed the window, and the last counts itself |
| ConnorsRsi.StreakBound | backend/indicators/connors_rsi.py:28-41 | the streak at bar i lies in [-i, i] |
| ConnorsRsi.UpStreakIsRun | backend/indicators/connors_rsi.py:36-37 | a positive streak k means exactly the last k closes each rose, and the one before did not |
| ConnorsRsi.DownStreakIsRun | backend/indicators/connors_rsi.py:38-39 | a negative streak -k means exactly the last k closes each fell, and the one before did not |
| ConnorsRsi.StreakSign | backend/indicators/connors_rsi.py:32-41 | the streak is positive if and only if the close rose, negative if and only if it fell |
| ConnorsRsi.StrictMaximumRanksHundred | backend/indicators/connors_rsi.py:53 | a window whose last value is its strict maximum ranks 100 |
| ConnorsRsi.CrsiRange | backend/indicators/connors_rsi.py:57 | every defined value lies in [0, 100] |
| ConnorsRsi.TooFewBars | backend/indicators/connors_rsi.py:15-17 | fewer than `rank_len + rsi_short_len + rsi_streak_len + 5` closes gives an all-NaN result |
| AdaptiveRsi.ChangeOver | backend/indicators/adaptive_rsi.py:14 | `diff(n)` is defined exactly when both ends are defined and n bars back exist |
| AdaptiveRsi.AbsDiffs | backend/indicators/adaptive_rsi.py:15 | the absolute one-step changes, one per value |
| AdaptiveRsi.Telescope | backend/indicators/adaptive_rsi.py:14-15 | the net change over a stretch never exceeds the sum of its absolute steps |
| AdaptiveRsi.ErBounds | backend/indicators/adaptive_rsi.py:17 | a defined efficiency ratio lies in [0, 1] |
| AdaptiveRsi.EfficiencyRatio | backend/indicators/adaptive_rsi.py:14-18 | the efficiency ratio, zero where undefined, lies in [0, 1] |
| AdaptiveRsi.EmaConstant | backend/indicators/adaptive_rsi.py:20-21 | 2/(p+1) is positive and at most 1 for a period of at least 1 |
| AdaptiveRsi.SmoothingConstant | backend/indicators/adaptive_rsi.py:23 | the squared smoothing constant is non-negative and at most 1 for periods of at least 1; with the fast period no longer than the slow one it lies between the squares of the slow and the fast EMA constants |
| AdaptiveRsi.EmaConstantAntitone | backend/indicators/adaptive_rsi.py:20-21 | a longer period never gives a larger EMA constant |
| AdaptiveRsi.RootBetween | backend/indicators/adaptive_rsi.py:23 | for a ratio in [0, 1] and fast <= slow, the squared root lies between the squared slow and fast constants |
| AdaptiveRsi.SmoothingConstants | backend/indicators/adaptive_rsi.py:17-23 | one non-negative constant per value, each at most 1 for periods of at least 1 |
| AdaptiveRsi.KamaLoop | backend/indicators/adaptive_rsi.py:42-59 | the loop leaves at each index the specified KAMA value |
| AdaptiveRsi.CalculateKama | backend/indicators/adaptive_rsi.py:9-65 | the computed KAMA is the specified KAMA series |
| AdaptiveRsi.KamaSeries | backend/indicators/adaptive_rsi.py:9-65 | one KAMA value per input |
| AdaptiveRsi.KamaSeriesFrom | backend/indicators/adaptive_rsi.py:25-59 | past the gate, values matching the KAMA recurrence at every index are the KAMA series |
| AdaptiveRsi.AdaptiveRsiSeries | backend/indicators/adaptive_rsi.py:68-100 | one value per close |
| AdaptiveRsi.Calculate | backend/indicators/adaptive_rsi.py:68-100 | the computed series is the specified adaptive RSI, with both fallbacks to plain RSI |
| AdaptiveRsi.StepBetween | backend/indicators/adaptive_rsi.py:55-57 | a KAMA step with constant in [0, 1] lands between the previous KAMA and the new value |
| AdaptiveRsi.KamaDefinedIff | backend/indicators/adaptive_rsi.py:42-59 | a KAMA value is defined if and only if the first value is (NaN propagates forward) |
| AdaptiveRsi.KamaWithinRange | backend/indicators/adaptive_rsi.py:45-59 | KAMA stays within any bounds that hold all input values |
| AdaptiveRsi.KamaSeriesWithinRange | backend/indicators/adaptive_rsi.py:9-65 | the KAMA series stays within any bounds that hold the input |
| AdaptiveRsi.AdaptiveRsiRange | backend/indicators/adaptive_rsi.py:85-98 | every defined value lies in [0, 100) |
| AdaptiveRsi.UndefinedFirstCloseFallsBack | backend/indicators/adaptive_rsi.py:89-91 | an undefined first close leaves KAMA all NaN, so the result is the plain RSI of the closes |
| CompositeMetricsService.Weight | backend/services/composite_metrics_service.py:29 | every weighted indicator has a positive weight |
| CompositeMetricsService.Denominator | backend/services/composite_metrics_service.py:31-34 | threshold minus neutral point is positive for every weighted key, so the near-zero skip never fires |
| CompositeMetricsService.Normalized | backend/services/composite_metrics_service.py:37 | the normalised score is 0 at the neutral point, 100 at the threshold, and negative exactly below the neutral point |
| CompositeMetricsService.NormalizedMonotone | backend/services/composite_metrics_service.py:37 | a larger reading never gets a smaller normalised score |
| CompositeMetricsService.CosPart | backend/services/composite_metrics_service.py:36-50 | a COS contribution lies in [0, weight * max component] and is 0 for a missing value |
| CompositeMetricsService.BsiPart | backend/services/composite_metrics_service.py:36-50 | a BSI contribution lies in [0, weight * 100] and is 0 for a missing value |
| CompositeMetricsService.AddEntry | backend/services/composite_metrics_service.py:19-22 | an entry without a weight or without values leaves the sums unchanged |
| CompositeMetricsService.Composite | backend/services/composite_metrics_service.py:8-65 | all four final scores lie in [0, 100] |
| CompositeMetricsService.CalculateCompositeMetrics | backend/services/composite_metrics_service.py:8-65 | the loop computes the specified composite, whose four scores lie in [0, 100] |
| CompositeMetricsService.SumsNonNegative | backend/services/composite_metrics_service.py:15-50 | the running sums never go negative |
| CompositeMetricsService.AllMissingGivesZero | backend/services/composite_metrics_service.py:19-57 | when no entry is scored, all sums and all four scores are 0 |
| CompositeMetricsService.SkippedItemAddsNothing | backend/services/composite_metrics_service.py:19-22 | appending an unweighted or value-less entry changes nothing |
| CompositeMetricsService.MissingSideAddsNothing | backend/services/composite_metrics_service.py:36-50 | a missing monthly value adds nothing to the monthly sums and leaves the weekly sums as with both values |
| CompositeMetricsService.ThresholdAndNeutralScores | backend/services/composite_metrics_service.py:37-41 | a reading at the threshold contributes the full weight * 100 to both scores, one at the neutral point contributes 0 |
| CompositeMetricsService.NeutralAddsNothing | backend/services/composite_metrics_service.py:36-41 | a monthly reading at the neutral point adds nothing to the monthly sums |
| CompositeMetricsService.SingleItem | backend/services/composite_metrics_service.py:19-50 | the sums of one entry are that entry's contributions |
| CompositeMetricsService.PartsMonotone | backend/services/composite_metrics_service.py:36-50 | a defined larger reading never contributes less, and a missing one contributes least |
| CompositeMetricsService.SumsMonotone | backend/services/composite_metrics_service.py:19-50 | raising readings entry by entry never lowers any sum |
| CompositeMetricsService.CompositeMonotone | backend/services/composite_metrics_service.py:8-65 | raising readings never lowers any of the four scores |
| LegacyScoring.Weight | update_historical_bsi.py:13-21 | every hard-coded weight is positive |
| LegacyScoring.BsiDistance | update_historical_bsi.py:43-59 | a distance from neutral is clipped into [0, 100] |
| LegacyScoring.BsiItem | update_historical_bsi.py:38-62 | a clean item contributes at most 100 * weight on each side |
| LegacyScoring.BsiSums | update_historical_bsi.py:34-62 | successful running sums are non-negative |
| LegacyScoring.Bsi | update_historical_bsi.py:10-68 | succeeds exactly when the sums do, and both results lie in [0, 100] |
| LegacyScoring.BsiLoop | update_historical_bsi.py:38-62 | the loop computes the specified sums or stops at the first error |
| LegacyScoring.BsiFailureSticks | update_historical_bsi.py:38-62 | once an item raises, later items do not change the outcome |
| LegacyScoring.CalculateBsi | update_historical_bsi.py:10-68 | computes the specified BSI pair or the first error |
| LegacyScoring.CalculateTsi | update_historical_tsi.py:10-68 | the TSI script computes exactly the BSI pair |
| LegacyScoring.CleanHasNoError | update_historical_bsi.py:39-41 | an item raises no error if and only if it has a threshold and a number under both side keys |
| LegacyScoring.MissingSideRaisedFirst | update_historical_bsi.py:39-41 | a dict without a "monthly" key raises KeyError('monthly') in both scripts before the threshold lookup, and a missing "weekly" key raises KeyError('weekly') once "monthly" was found |
| LegacyScoring.BsiSucceedsIff | update_historical_bsi.py:38-62 | the pair is computed if and only if every item is clean |
| LegacyScoring.UpdateTimePoint | update_historical_bsi.py:94-106 | a point without an `indicators` key is untouched; a `null` indicators, or a `null` compositeMetrics once the pair is computed, is a TypeError; otherwise it succeeds exactly when the pair does, writes it under 'tsi' and keeps every other composite key |
| LegacyScoring.Normalize | generate_historical_metrics.py:37-51 | the normalised dict only holds keys with a threshold |
| LegacyScoring.Generate | generate_historical_metrics.py:12-119 | a successful TSI pair lies in [0, 100] |
| LegacyScoring.NormalizeLoop | generate_historical_metrics.py:39-51 | the loop computes the specified normalised dict or the first error |
| LegacyScoring.NormalizeFailureSticks | generate_historical_metrics.py:39-51 | once an item raises, later items do not change the outcome |
| LegacyScoring.CosLoop | generate_historical_metrics.py:54-56 | the loop computes the weighted COS over the weight order, or the KeyError of the first missing key |
| LegacyScoring.CosFailureSticks | generate_historical_metrics.py:54-56 | once a weight key is missing, later keys do not change the outcome |
| LegacyScoring.GenerateCompositeMetrics | generate_historical_metrics.py:12-119 | the script's function computes the specified scores or the first error |
| LegacyScoring.GenerateTimePoint | generate_historical_metrics.py:145-154 | a point without an `indicators` key is untouched; a `null` indicators is a TypeError; otherwise it succeeds exactly when the scoring does, and compositeMetrics becomes exactly the keys 'cos' and 'tsi', 'cos' the COS pair and 'tsi' the BSI pair, whatever it held before |
| LegacyScoring.GenerateDropsOtherKeys | generate_historical_metrics.py:151-154 | a composite key other than 'cos' and 'tsi' survives the update scripts' pass but not the generator's |
| LegacyScoring.GeneratedTsiIsBsi | generate_historical_metrics.py:80-119 | the 'tsi' pair it produces is exactly the BSI of the update scripts |
| LegacyScoring.GenerateNeedsCleanItems | generate_historical_metrics.py:39-51 | a successful run implies every item is clean |
| LegacyScoring.NormalizeKeys | generate_historical_metrics.py:39-49 | the normalised dict holds exactly the item keys |
| LegacyScoring.CosOverSucceedsIff | generate_historical_metrics.py:55-56 | COS succeeds if and only if every weight key was normalised |
| LegacyScoring.NormalizeSucceeds | generate_historical_metrics.py:39-51 | clean items always normalise |
| LegacyScoring.GenerateSucceedsIff | generate_historical_metrics.py:12-119 | the scores are computed if and only if every item is clean and all seven weighted indicators are present |
| LegacyScoring.WilliamsCosNorm | generate_historical_metrics.py:44-45 | Williams %R at or below -20 normalises to 100, and above -20 (up to 0) to less than 100 |
| LegacyScoring.CosIsUnclamped | generate_historical_metrics.py:53-56 | COS is an unclamped weighted sum: when all seven weighted indicators normalise to 200 (each at twice its threshold), COS is 200, outside [0, 100] |
| LegacyScoring.CosUniform | generate_historical_metrics.py:53-56 | when every key normalises to 200, the weighted sum is 200 times the keys' total weight |
| LegacyScoring.WeightOrderSumsToOne | generate_historical_metrics.py:15-23 | the seven COS weights, in their dict order, add up to one |
| FrontendComposite.Distance | components/App.js:68-87 | the clipped BSI distance lies in [0, 100] |
| FrontendComposite.Composite | components/App.js:27-93 | all four scores lie in [0, 100]; no data or an empty dict scores all zeros |
| FrontendComposite.CalculateCompositeMetrics | components/App.js:27-93 | the forEach computes the specified composite |
| FrontendComposite.DistanceIsLegacy | components/App.js:68-87 | the browser's BSI distance is the one the legacy update scripts use |
| FrontendComposite.HalfMissingItemSkipped | components/App.js:38-42 | an item whose monthly value is not a number is skipped entirely, weekly value included |
| FrontendComposite.ItemAgreesWithLegacy | components/App.js:38-87 | an item the legacy scripts accept, seen with both side keys present and NaN as `null`, is counted and contributes the same BSI pair as in the legacy scripts |
| FrontendComposite.BsiSumsAgreeWithLegacy | components/App.js:36-87 | on clean items the browser's raw BSI sums equal the legacy scripts' sums |
| FrontendComposite.BsiAgreesWithLegacy | components/App.js:27-93 | on non-empty clean items the browser's BSI pair is the legacy BSI pair |
| FrontendComposite.BsiDiffersFromService | components/App.js:68-81 | an RSI of 50 on both sides scores BSI 0 in the backend service but more than 0 in the browser, whose neutral point is half the threshold |
| LegacyApp.Deltas | app.py:189 | one difference per adjacent pair of prices, none for an empty list |
| LegacyApp.SumGains | app.py:190-191 | the summed gains are non-negative |
| LegacyApp.SumLosses | app.py:190-192 | the summed losses are non-negative |
| LegacyApp.Seed | app.py:190-192 | the seed averages, taken over up to `period + 1` deltas and divided by `period`, are non-negative |
| LegacyApp.Wilder | app.py:205-206 | a Wilder step of non-negative values stays non-negative |
| LegacyApp.Smooth | app.py:197-206 | one smoothing step keeps both averages non-negative |
| LegacyApp.AvgsAt | app.py:197-206 | the averages after each step are non-negative |
| LegacyApp.RsiValue | app.py:193-195 | the RSI lies in [0, 100] and is exactly 100 when the average loss is zero |
| LegacyApp.LegacyRsi | app.py:186-211 | fails (the `rsi[-1]` IndexError) exactly on an empty price list; otherwise lies in [0, 100] |
| LegacyApp.CalculateRsi | app.py:186-211 | the loop computes the specified last RSI |
| LegacyApp.NoLossesSum | app.py:190-192 | deltas that never fall sum to zero loss |
| LegacyApp.NonDecreasingNoFalls | app.py:189 | never-falling prices give deltas that never fall |
| LegacyApp.SeedNoLoss | app.py:190-192 | the seed loss of never-falling deltas is zero |
| LegacyApp.AvgsNoLoss | app.py:197-206 | the average loss of never-falling deltas stays zero |
| LegacyApp.NonDecreasingScoresHundred | app.py:186-211 | never-falling prices score exactly 100 |
| LegacyApp.LegacyAndBackendDiverge | app.py:193-195 | on never-falling prices the legacy RSI is 100 while the backend RSI is undefined everywhere |
| LegacyApp.WindowRsis | app.py:217-219 | one RSI per window of `period` consecutive prices, in window order |
| LegacyApp.WindowRsi | app.py:219 | a window's RSI lies in [0, 100] |
| LegacyApp.Position | app.py:233 | the position of a value in its range lies in [0, 100], 0 at the low and 100 at the high |
| LegacyApp.MinReal | app.py:227 | the minimum is attained and bounds every value |
| LegacyApp.MaxReal | app.py:228 | the maximum is attained and bounds every value |
| LegacyApp.LegacyStochRsi | app.py:213-234 | the legacy stochastic RSI lies in [0, 100] |
| LegacyApp.Oscillator | app.py:224-234 | the oscillator of any RSI list, including the fallbacks for too few values or a flat range, lies in [0, 100] |
| LegacyApp.CollectRsis | app.py:217-219 | the loop collects exactly the windowed RSI values |
| LegacyApp.CalculateStochRsi | app.py:213-234 | computes the specified legacy stochastic RSI |
| LegacyApp.Oscillate | app.py:224-234 | computes the specified oscillator of the collected RSI values |
| LegacyApp.LastBetween | app.py:227-233 | the last RSI lies between the minimum and maximum of the last `period` values |
| LegacyApp.ShortInputScoresFifty | app.py:224-225 | fewer than `2 * period - 1` prices gives 50 |
| LegacyApp.LastAtHighScoresHundred | app.py:213-234 | when the last windowed RSI is the strict high of the last `period`, the result is 100 |
| LegacyApp.OscillatorAtHigh | app.py:230-233 | an RSI list whose last value is the strict high of the last `period` oscillates to 100 |
| OutcomeService.RoundHalfEven | backend/services/outcome_service.py:49 | Python's `round`: the nearest integer, ties to the even one, never negative for a non-negative input |
| OutcomeService.RoundNearest | backend/services/outcome_service.py:49 | `round(x, 1)` and `round(x, 2)` lie within half a unit of the last place of x and keep a non-negative x non-negative |
| OutcomeService.Judge | backend/services/outcome_service.py:46-49 | a fetched price always gets a known direction |
| OutcomeService.JudgeMeaning | backend/services/outcome_service.py:46-49 | up exactly when the future price is higher, down exactly when lower, flat exactly when equal; the percentage is the rounded absolute change and the price the rounded future close |
| OutcomeService.PriceOutcomes | backend/services/outcome_service.py:26-28 | a missing, NaN or zero base price gives unknown for all three horizons |
| OutcomeService.OutcomesOf | backend/services/outcome_service.py:33-53 | one outcome per horizon, each the outcome for that horizon |
| OutcomeService.CalculatePriceOutcomes | backend/services/outcome_service.py:12-56 | returns the specified outcomes; with a usable base price the daily table is what the horizon fetches leave, otherwise unchanged; the indicator cache is untouched |
| OutcomeService.HorizonLoop | backend/services/outcome_service.py:33-53 | the loop returns each horizon's outcome and leaves the table the fetches store, in horizon order |
| OutcomeService.HorizonStep | backend/services/outcome_service.py:34-53 | one horizon: its outcome, and the table after its fetch, which only happens on or before today |
| OutcomeService.HorizonInRange | backend/services/outcome_service.py:34-37 | the horizon day is never before the base day, and one not after today is a representable date |
| OutcomeService.HorizonsAscending | backend/services/outcome_service.py:33-34 | the 1, 6 and 12 month horizons fall strictly after the base day and in that order |
| OutcomeService.KnownExactly | backend/services/outcome_service.py:37-53 | a horizon is known if and only if it is not after today and the fetch for that day succeeds; otherwise the outcome is exactly the unknown one |
| OutcomeService.StoreNeverBeyondToday | backend/services/outcome_service.py:37-43 | no day after today is written |
| OutcomeService.StoreOnlyHorizons | backend/services/outcome_service.py:33-43 | only the horizon days can be written |
| OutcomeService.OutcomesAreHorizons | backend/services/outcome_service.py:30-56 | with a usable base, the 1M, 6M and 12M outcomes are those of the three horizons in order |
| IndicatorService.FormatDbData | backend/services/indicator_service.py:22-54 | a cached row always formats to a status-200 response served from the cache, marked custom exactly when the day is not today |
| IndicatorService.Cached | backend/services/indicator_service.py:64 | the cached row is present exactly when the day is stored, and is that day's row |
| IndicatorService.GetIndicatorData | backend/services/indicator_service.py:57-135 | returns the specified response and leaves the specified daily table and indicator cache |
| IndicatorService.Recompute | backend/services/indicator_service.py:71-135 | a cache miss: loads the history, then answers with the short-history or the calculated response and the matching stores |
| IndicatorService.ShortHistoryBranch | backend/services/indicator_service.py:73-97 | fewer than 60 daily bars: fetch the day, answer with an error or price-only data, and never write the indicator cache |
| IndicatorService.Calculate | backend/services/indicator_service.py:99-135 | the full calculation answers with the computed response, stores the outcome fetches and upserts the snapshot for the day |
| IndicatorService.HistoryInRange | backend/services/indicator_service.py:71 | every bar of the loaded history has a representable date |
| IndicatorService.PastDayAlwaysHit | backend/services/indicator_service.py:66 | a stored snapshot of a past day is always served |
| IndicatorService.TodayHitIffFresh | backend/services/indicator_service.py:66 | today's stored snapshot is served if and only if it has a calculation time less than 3600 seconds old; no row is never a hit |
| IndicatorService.FormatInvertsFlatten | backend/services/indicator_service.py:22-54 | formatting a flattened snapshot gives back its indicators, composite scores, price and outcomes |
| IndicatorService.StoredSnapshotServesSameData | backend/services/indicator_service.py:121-135 | the stored snapshot of a calculation formats to the same response, apart from its description |
| IndicatorService.CalculationStoresResponse | backend/services/indicator_service.py:121 | after a calculated answer with working writes, the cache holds the day, and it formats to that answer |
| IndicatorService.RepeatIsServedFromCache | backend/services/indicator_service.py:64-68 | asking again at the same moment hits the cache and returns the same data, served from the cache |
| IndicatorService.ShortHistoryHasNoIndicators | backend/services/indicator_service.py:75-97 | the short-history answer is an error exactly when the day's fetch fails; otherwise it has zero composite scores, the fetched close and all seven indicators empty |
| IndicatorService.ResponseShape | backend/services/indicator_service.py:50-53 | status is 200 exactly for data; data is custom exactly when the day is not today, and named by the day plus " (Today)" or " (Historical)" |
| IndicatorService.ErrorOnlyWithoutPrice | backend/services/indicator_service.py:73-81 | an error happens only with fewer than 60 bars and a failed fetch, and reports the bar count and the fetch error |
| DbChecker.Earliest | scripts/db_checker.py:57 | `min(existing_dates)` is a stored day no later than any other |
| DbChecker.Latest | scripts/db_checker.py:58 | `max(existing_dates)` is a stored day no earlier than any other |
| DbChecker.FindGaps | scripts/db_checker.py:79-110 | the day-by-day scan counts exactly the missing days of the range and returns a correct gap report (maximal runs, in order, covering every missing day) whose lengths add up to that count |
| DbChecker.CloseAtEnd | scripts/db_checker.py:109-110 | a run still open after the last day, closed at the end date, completes a correct gap report |
| DbChecker.CheckDataGaps | scripts/db_checker.py:22-122 | an empty table gives the suggestion and nothing else; otherwise a bad date gives a format error, a reversed range a range error, and else the checked range with its exact missing count and correct gap report |
| DbChecker.SuggestionMeaning | scripts/db_checker.py:41-47 | the empty-table command is suggested exactly when both dates are given and parse in order with commands requested, and spans those dates, at least one day |
| DbChecker.DefaultRangeIsStoredSpan | scripts/db_checker.py:67-68 | without arguments the range is the earliest to the latest stored day, which is never reversed |
| DbChecker.NoGapsIffComplete | scripts/db_checker.py:112-115 | no run is reported exactly when no day of the range is missing |
| DbChecker.FirstRunStarts | scripts/db_checker.py:85-88 | the first run starts no later than any missing day |
| DbChecker.TailReport | scripts/db_checker.py:84-110 | the runs after the first are a correct report for the days after it |
| DbChecker.GapReportUnique | scripts/db_checker.py:79-110 | two correct reports of the same range are equal, so the scan's runs are the only right answer |

## Left out

- HTTP and JSON decoding in `backend/api_clients.py` are not modelled. Each request's reply comes from an oracle, so timeouts and connection errors are one "request failed" reply.
- `time.sleep` is not performed. The API clients record the delays they would sleep (`ApiClients.Run.sleeps`). The 1.5 s pause between sources in `backend/data_sources.py` is not modelled.
- Reading and listing the CSV files (`os.listdir`, `pd.read_csv`) is not modelled. A file arrives parsed or `Unreadable`.
- SQLite connections, schema creation and migrations are not modelled. The two tables are maps in `DbUtils.Database`, and one `writeOk` flag stands for every write of a call succeeding or failing together.
- The clock is a parameter: `datetime.now` and `time.time` are one integer `now`, in seconds.
- Floating point is not modelled. All arithmetic is on exact reals, so IEEE rounding and overflow to infinity do not occur.
- In the JavaScript scorer a NaN value passes the `typeof` check and turns the sums into NaN. The model treats NaN as missing, so such an item is skipped.
- OutcomeService.RoundHalfEven: Python's `round` is modelled as exact round-half-to-even on the real value. A float whose decimal text looks like a tie can round the other way in Python.
- pandas internals are not modelled: the resample calendar engine, the rolling-window code and dtype coercion. Their effect is written as functions on sequences.
- pandas' `Timestamp` limit (years 1677 to 2262) and the `OverflowError` it raises are not modelled. Dates are limited to Python's `date` range instead.
- DbUtils.DateToIsoString: years below 1000 are zero-padded to four digits. Platform `strftime` may leave them unpadded.
- DbUtils.IsoStringToDate: only the strict `YYYY-MM-DD` form parses. `strptime` would also accept unpadded month and day fields.
- In Connors RSI, a zero previous close, which pandas turns into infinity, is modelled as an undefined change that the `fillna(0)` then sets to 0.
- A JSON `null` volume from CoinGecko is not modelled. The volume is a number or missing, and missing defaults to 0.
- The `price_at_event` fetch fallback in `backend/services/indicator_service.py:99-106` is not modelled as a separate branch. Stored closes are never NaN, so with 60 or more bars the last close always exists.
- Response texts are modelled by their structure, not their wording. This covers the `error`, `error_message` and `description` strings, and `lastUpdate` as a timestamp rather than ISO text.
- In `scripts/db_checker.py` the following are not modelled:
  - the `list_sources` per-day query, which only logs;
  - a missing database file and an `OperationalError`;
  - the `date.max` overflow when the range ends on 9999-12-31.
- The overbought counters in `generate_historical_metrics.py` are not modelled; their values are never used.
- The `main` functions of the historical scripts are not modelled. They read and write `historical_data.json`. One pass of the loop in the two update scripts (update_historical_bsi.py:94-106, update_historical_tsi.py:94-106) is `LegacyScoring.UpdateTimePoint`; one pass of the generator's loop (generate_historical_metrics.py:145-154) is `LegacyScoring.GenerateTimePoint`.
- Logging is not modelled. Nor are Flask routes, the refresh thread, signal handling and every UI component except `calculateCompositeMetrics`.
