# A-share stock screener: screening core in Dafny

This project models the screening logic of `stockSelection1.py`, a screener
for listed Chinese A-share stocks. It leaves out the data-provider calls, the
pickle file and the web page. It covers five parts:

- **Universe qualifier** (`universe.dfy`, module `Universe`). It keeps listed
  instruments that are not on the 创业板 or 科创板 boards and whose name does
  not contain `ETF` or `etf`. It downloads quotes 500 codes at a time and
  left-joins them on the code. It keeps rows with a price of at least 3.0 and
  maps exchange codes to exchange names.
- **Signal calculators** (`signals.dfy`, module `Signals`, over `bars.dfy`).
  The streak detector `calculate_limit_up_status` sorts bars most recent first
  and counts leading days with a change of at least 9.8 %, scanning at most
  `k` days. The trend detector `calculate_trend_status` needs 60 bars. It
  computes the total return, the 5-day and 20-day moving averages at the last
  bar, and the mean of the last 20 intraday volatilities, then qualifies on
  the three-way test.
- **Data cache** (`cache.dfy`, module `Cache`). It is a class holding the
  cache dictionary, key → (time stamp, payload). An entry is served only
  while it is less than 24 hours old. The module also defines the two cache
  keys and the dash-stripping date normalisation.
- **Cached requests** (`gateway.dfy`, module `Gateway`). `get_real_daily_data`
  and `get_all_qualified_stocks` are methods on the cache. The provider's
  answers and the clock are parameters. Each method is proved equal to a
  function describing what it returns and what the cache holds afterwards.
- **Screening orchestrator** (`screening.dfy`, module `Screening`). This is
  `filter_all_stocks`. It walks the candidates in batches of ten, annotates
  a per-candidate row object in place and appends references to it, then
  filters by board and deduplicates by stock symbol. `ResultRow` is a class,
  so the model keeps the source's aliasing: when both detectors pass in mode
  全部, the list holds the same object twice. Both entries then read as
  趋势票 and still carry the streak length.

Dates are `YYYYMMDD` numbers, prices and percentages are exact `real`s, and
times are integer microseconds.

Four behaviours of the code are easy to misread. The model reproduces the
code as written:

- The ETF pattern is the two literal spellings `ETF` and `etf`, not a
  case-insensitive match. "Etf" is kept (`Universe.EtfPatternExample`).
- In mode 全部 a stock that passes both detectors is not labelled by "first
  match wins, streak before trend". The row object is shared, so both list
  entries end up labelled 趋势票 (`Screening.BothPassTwoTrendRows`).
  Deduplication by symbol then leaves one such row. As the program is
  written this case does not arise, because of the next point.
- The trend detector, as `filter_all_stocks` calls it, never qualifies.
  stockSelection1.py:234 asks for the bars of the 60 calendar days before
  the trade date. With one bar per trading day, those 61 days hold at most
  45 bars, and line 237 demands 60. So `calculate_trend_status` returns
  (false, 0, 0) for every candidate (`Signals.TrendNeedsSixtyDates`), and
  mode 趋势票 returns an empty table. The detector itself is modelled as
  written, and its lemmas describe what it does when it does get 60 bars.
- When no instrument survives the venue and ETF filters, the code list is
  empty and no quote table is ever built. Line 118 then reads its amount
  column, which raises `KeyError`. So the request returns an empty table and
  caches nothing (`Gateway.NoEligibleNotCached`). A successful run that
  qualifies no stock is still cached.

## Model

| member | source | states |
|---|---|---|
| `Signals.StreakStatusBounds` | stockSelection1.py:209-225 | the count is at most the number of bars and, for `k` ≥ 0, at most `k`; it qualifies only with at least one and at least `k` bars, and then (for `k` ≥ 0) the count is exactly `k` |
| `Signals.LimitUpStatus` | stockSelection1.py:209-225 | the loop (at most `k` passes, stops at the first day below 9.8 %) returns exactly what StreakStatus specifies |
| `Signals.StreakTooFewBars` | stockSelection1.py:209-210 | with no bars or fewer than `k` bars the detector answers (false, 0) |
| `Signals.StreakCount` | stockSelection1.py:213-225 | the count is at most `k`; every counted day of the most-recent-first order is limit-up; the day after a short run is not; it qualifies iff the count equals `k` |
| `Signals.StreakQualifiesIff` | stockSelection1.py:209-225 | it qualifies exactly when there are at least `k` bars and the `k` most recent are all limit-up |
| `Signals.StreakMonotone` | stockSelection1.py:216-225 | if the `n` most recent days are limit-up, every `k` with 0 < k <= n gives (true, k) |
| `Signals.StreakExample` | stockSelection1.py:213-225 | +9.9 %, +9.8 %, +5 % (newest first) with k = 2 gives (true, 2), in any input order |
| `Signals.StreakIgnoresInputOrder` | stockSelection1.py:213 | with distinct trade dates the result does not depend on the order the provider returned the rows in |
| `Signals.LeadingLimitUps` | stockSelection1.py:216-223 | the scanned run is no longer than the bars or the cap, consists of limit-up days, and stops at a non-limit-up day when it ends early |
| `Signals.TrendQualifiesWithinBounds` | stockSelection1.py:237-265 | for any bars, a qualifying answer reports a return of at least 30 and a mean volatility of at most 25 (the fewer-than-60 case is `Signals.TrendTooFewBars`) |
| `Signals.TrendOfSorted` | stockSelection1.py:240-263 | a first close of 0 gives a return of 0 and no qualification; a qualifying answer has passed all three tests |
| `Signals.ReturnPct` | stockSelection1.py:245 | a first close of 0 gives 0; for a positive first close the return is non-negative iff the last close is at least the first |
| `Signals.RollingMean` | stockSelection1.py:248-251 | before a full window the mean is 0 (`fillna(0)`); over a window of equal closes it is that close |
| `Signals.Volatility` | stockSelection1.py:254-257 | an open of 0 gives 0; a positive open with high ≥ low gives a non-negative value |
| `Signals.TrendNeedsSixtyDates` | stockSelection1.py:234-238 | bars with distinct dates drawn from fewer than 60 trading days always give (false, 0, 0) |
| `Bars.DistinctDatesWithin` | stockSelection1.py:234-237 | bars with distinct dates drawn from a set of days are at most as many as the days |
| `Signals.TrendTooFewBars` | stockSelection1.py:237-238 | with fewer than 60 bars the trend detector answers (false, 0, 0) |
| `Signals.TrendQualifiesIff` | stockSelection1.py:240-263 | on the date-sorted bars it qualifies iff the return test holds (for a positive first close: last close ≥ 1.3 × first; for a negative one: last close ≤ 1.3 × first; a first close of 0 never passes), the last 5 closes average above the 15 before them, and the last 20 volatilities sum to at most 500 |
| `Signals.SortedTrendQualifiesIff` | stockSelection1.py:245-263 | the same equivalence for bars already in ascending order |
| `Signals.ReturnThreshold` | stockSelection1.py:245 | a return of at least 30 % means: last close ≥ 1.3 × first for a positive first close, last close ≤ 1.3 × first for a negative one (the division flips the comparison), and never for a first close of 0 |
| `Signals.ShortAboveLong` | stockSelection1.py:248-251 | the 5-day rolling mean exceeds the 20-day one at the last bar iff the last five closes average above the fifteen before them |
| `Signals.VolatilityThreshold` | stockSelection1.py:258 | the mean of the last 20 volatilities is at most 25 iff their sum is at most 500 |
| `Signals.TrendExample` | stockSelection1.py:240-265 | 60 bars from close 10 to 14, rising averages and a mean volatility of 10 give (true, 40, 10) |
| `Signals.TrendIgnoresInputOrder` | stockSelection1.py:240 | with distinct trade dates the trend result does not depend on the row order |
| `Signals.Tail` | stockSelection1.py:258 | `tail(n)` is the suffix of min(n, length) values |
| `Bars.SortByDate` | stockSelection1.py:213 | sorting by trade date yields a date-ordered permutation of the bars |
| `Bars.SortIgnoresInputOrder` | stockSelection1.py:213 | two arrangements of the same bars with distinct dates sort to the same sequence |
| `Bars.SortedUnique` | stockSelection1.py:240 | two date-sorted permutations coincide when equal dates mean equal bars |
| `Universe.Eligible` | stockSelection1.py:89-92 | the eligible instruments are a subsequence of the listing, each on an allowed board and not named like an ETF |
| `Universe.EligibleIff` | stockSelection1.py:89-92 | an instrument survives the two filters iff its market is not 创业板/科创板 and its name does not contain ETF or etf |
| `Universe.EtfPatternExample` | stockSelection1.py:92 | "沪深300ETF" and "etf基金" match, "Etf" and a missing name do not |
| `Universe.ExchangeName` | stockSelection1.py:145 | only SSE, SZSE and BSE map to a name; any other code maps to missing |
| `Universe.FetchQuotes` | stockSelection1.py:105-113 | the batch loop returns the concatenation of the per-batch answers in request order, or failure if any request fails |
| `Universe.QuoteBatchesCoverCodes` | stockSelection1.py:108-110 | the batches of 500 together are the code list, in order, each holding 1 to 500 codes |
| `Universe.LeftJoin` | stockSelection1.py:121-126 | the join has at least one row per instrument, and each row is labelled by its position |
| `Universe.LeftJoinSound` | stockSelection1.py:121-126 | each joined row pairs an instrument with no quote or with a quote for its own code |
| `Universe.LeftJoinHasInstrument` | stockSelection1.py:121-126 | a left join keeps every instrument |
| `Universe.LeftJoinHasQuote` | stockSelection1.py:121-126 | every quote for an instrument's code has a row pairing the two |
| `Universe.PriceFilter` | stockSelection1.py:129-130 | the filter keeps no more rows than it is given, each priced at least 3.0 |
| `Universe.Qualify` | stockSelection1.py:121-130 | the qualified table has no more rows than the join, each priced at least 3.0 |
| `Universe.PriceFilterSelects` | stockSelection1.py:129-130 | the price filter keeps exactly the joined rows that have a price of at least 3.0 |
| `Universe.PriceFilterKeepsOrder` | stockSelection1.py:129-130 | the kept rows are a subsequence of the joined table, with their index labels increasing |
| `Universe.QualifiedRowsPassRules` | stockSelection1.py:89-145 | every qualified row comes from an instrument of the listing on an allowed board, not named like an ETF, with a quote for its code priced at least 3.0; it carries the instrument's code, symbol, name, market, industry and listing date, the exchange's name, and the quote's close, change, volume and amount / 10000 |
| `Universe.QualifyComplete` | stockSelection1.py:89-145 | every instrument that passes the rules and has a quote at or above 3.0 appears in the qualified table with that quote |
| `Universe.QualifyKeepsJoinOrder` | stockSelection1.py:121-130 | the qualified table keeps the join's order and labels |
| `Universe.ThreeInstrumentExample` | stockSelection1.py:89-130 | of an instrument on 创业板, one at 2.5 and one at 5.0, only the last qualifies |
| `Cache.DataCache.Lookup` | stockSelection1.py:72-76 | an entry is served iff its key is present and it is less than 24 hours old, and then its payload is served |
| `Cache.DataCache.Store` | stockSelection1.py:148 | a write overwrites its key and changes nothing else |
| `Cache.StoredIsFresh` | stockSelection1.py:148 | an entry written at `now` is served at `now` |
| `Cache.StoreKeepsOtherKeys` | stockSelection1.py:189 | writing one key leaves every other key's lookup as it was |
| `Cache.FreshWindow` | stockSelection1.py:166-169 | an entry stamped `t` is served iff now < t + 24 h and missed iff now ≥ t + 24 h |
| `Cache.DailyKey` | stockSelection1.py:163 | the key starts with "daily_" and the code, and is as long as that prefix, the code, both dates and two separators together |
| `Cache.DailyKeyNotQualified` | stockSelection1.py:69 | no daily key equals "qualified_stocks" |
| `Cache.DailyKeyInjective` | stockSelection1.py:163 | daily keys of different requests differ when codes and start dates contain no underscore |
| `Cache.RemoveDashes` | stockSelection1.py:173-174 | the result contains no dash and is no longer than the input |
| `Cache.NormaliseDate` | stockSelection1.py:173-174 | the result has no dash and is no longer than the input; a dash-free date is unchanged |
| `Cache.NormaliseDeletesDashes` | stockSelection1.py:173-174 | normalisation deletes exactly the dashes and keeps every other character in order |
| `Cache.NormaliseDateProperties` | stockSelection1.py:173-174 | the result has no dash, normalising twice equals normalising once, and a dash-free date is unchanged |
| `Cache.NormaliseDateExample` | stockSelection1.py:173-174 | "2024-01-05" becomes "20240105" |
| `Gateway.DailyOutcome` | stockSelection1.py:160-199 | the cache stays well typed; a fresh hit leaves it alone; otherwise it is unchanged or gains the non-empty answer under the request's key, stamped with the time of writing |
| `Gateway.DailyBars` | stockSelection1.py:160-199 | the cached daily request returns, and leaves in the cache, exactly what DailyOutcome describes |
| `Gateway.DailyHit` | stockSelection1.py:166-169 | a fresh entry is returned and the cache is unchanged |
| `Gateway.DailyMiss` | stockSelection1.py:171-199 | on a miss the provider is asked with dash-free dates; its answer (empty on failure) is returned; a non-empty answer is stored under the request's key with the time of writing, anything else leaves the cache alone |
| `Gateway.DailyStoresOnlyItsKey` | stockSelection1.py:182-195 | empty results are never stored; only the request's own key changes |
| `Gateway.DailyRepeatIsStable` | stockSelection1.py:166-190 | after bars were returned the cache holds them under the request's key (stamped with the time of writing when downloaded); a repeat while that entry is fresh returns them from the cache whatever the provider would now answer |
| `Gateway.DashedAndPlainDatesShareRequest` | stockSelection1.py:163-174 | "2024-01-05" and "20240105" send the same provider request but use different cache keys |
| `Gateway.QualifiedOutcome` | stockSelection1.py:66-157 | the cache stays well typed; a fresh hit leaves it alone; otherwise it is unchanged or holds the returned table under "qualified_stocks", stamped with the time of writing |
| `Gateway.QualifiedStocks` | stockSelection1.py:66-157 | the cached universe request returns, and leaves in the cache, exactly what QualifiedOutcome describes |
| `Gateway.QualifiedMissRowsPassRules` | stockSelection1.py:78-152 | the download succeeded, and each row of a freshly computed table is made from an instrument of the listing and a quote of that download by every qualifier rule |
| `Gateway.QualifiedStoresOnSuccess` | stockSelection1.py:78-157 | on a miss, a failed listing, calendar or quote request, or an empty code list, returns an empty table and leaves the cache alone; otherwise the table built from the answers is returned and stored under "qualified_stocks" with the time of writing |
| `Gateway.NoEligibleNotCached` | stockSelection1.py:105-118 | with no eligible instrument the request fails and nothing is cached |
| `Gateway.QualifiedRepeatIsStable` | stockSelection1.py:72-76 | a written entry carries the time of writing, and a repeat within 24 hours of it returns the stored table whatever the provider would now answer |
| `Screening.RunDetectors` | stockSelection1.py:298-312 | the row object ends with the columns the requested detectors wrote, and one reference is appended per passing detector |
| `Screening.ScreenCandidate` | stockSelection1.py:295-316 | one candidate appends `m` references to a fresh row object whose final value, repeated `m` times, is that candidate's specified rows |
| `Screening.ScreenNext` | stockSelection1.py:293-316 | after one more candidate the list reads as the rows specified for one more candidate |
| `Screening.ScreenBatch` | stockSelection1.py:290-316 | after a batch the list reads as the rows specified for the candidates up to the batch's end |
| `Screening.FilterAllStocks` | stockSelection1.py:282-334 | the batched loop followed by the board filter and dedup returns Screen, the batch-free specification |
| `Screening.Annotated` | stockSelection1.py:297-312 | the annotated row is the candidate's; it carries a label iff some detector appended it, and 趋势票 when both did |
| `Screening.Collect` | stockSelection1.py:282-316 | the list holds at most two rows per candidate |
| `Screening.LabelledAfter` | stockSelection1.py:314-316 | in 全部, once a candidate's rows are appended its index label is present |
| `Screening.Screen` | stockSelection1.py:328-334 | the table has at most two rows per candidate, and with a board filter every row is on that board |
| `Screening.Dedup` | stockSelection1.py:334 | deduplication never adds rows and keeps a non-empty table non-empty |
| `Screening.BoardFilter` | stockSelection1.py:332-333 | the result is a subsequence; with 全部 it is everything; otherwise it holds exactly the rows whose board equals the filter |
| `Screening.DedupUniqueSymbols` | stockSelection1.py:334 | after deduplication no two rows share a 股票代码 |
| `Screening.DedupKeepsFirst` | stockSelection1.py:334 | every kept row is the first row with its symbol |
| `Screening.DedupCoversSymbols` | stockSelection1.py:334 | every symbol of the input survives deduplication |
| `Screening.DedupMembers` | stockSelection1.py:334 | deduplication only drops rows and keeps the survivors in their input order (a subsequence) |
| `Screening.StockRowsCopies` | stockSelection1.py:298-316 | a candidate appends up to two copies of its final row, at least one when the mode selects it and (in 全部) its label is not already present |
| `Screening.CollectSound` | stockSelection1.py:293-316 | every collected row is the final row of a candidate the mode selects |
| `Screening.CollectComplete` | stockSelection1.py:293-316 | every candidate the mode selects is collected, given distinct index labels in 全部 |
| `Screening.EveryCandidateLabelled` | stockSelection1.py:314-316 | in 全部 every candidate's index label appears among the collected rows |
| `Screening.BothPassTwoTrendRows` | stockSelection1.py:300-312 | passing both detectors in 全部 appends two identical rows labelled 趋势票 that carry the streak length |
| `Screening.ScreenSound` | stockSelection1.py:328-334 | returned rows have unique symbols, lie on the requested board, and carry the columns and label the mode reports for a selected candidate |
| `Screening.ScreenComplete` | stockSelection1.py:328-334 | every selected candidate on the requested board is represented in the result by its symbol |
| `Screening.OneRowPerStock` | stockSelection1.py:282-334 | in 全部 over all boards, distinct labels and symbols give exactly one row per stock, in table order |
| `Screening.QualifiedIndicesDistinct` | stockSelection1.py:121-130 | the qualified table's index labels are distinct, so the completeness lemmas apply to it |

## Left out

- The data provider (`pro.stock_basic`, `pro.trade_cal`, `pro.daily`) is not
  modelled. Its answers are parameters, and a raised exception is `None`.
- Resolving the reference trade date is not modelled. This covers the
  calendar lookup with its 7-day fallback and the calendar arithmetic behind
  the detectors' start dates. These are parameters of the model.
- The pickle file is not modelled: loading and saving, the directory, and
  the fact that a failed load gives `{}` and a failed save is only a warning.
  The `DataCache` object stands for the file's dictionary between requests.
- `time.sleep` pacing is left out. It only affects timing.
- The Streamlit page is left out. This covers the progress bar, messages,
  `main` and the CSV export.
- Python's `round(x, 2)` on the two trend metrics is not modelled.
  `Signals.TrendStatus` returns the exact values. Qualification uses the
  unrounded values, as the source does.
- The orchestrator's `except` branch (stockSelection1.py:318-320) is left
  out. Both detectors catch every exception themselves and return the
  non-qualifying answer, so the model merges such failures with "no bars".
- `Gateway.DailyBars`, `Gateway.QualifiedStocks`: the clock is read at the
  lookup (`now`) and again when the entry is written (`stamp`,
  stockSelection1.py:148 and 189). Both are parameters, and the model does
  not assume that the second is later than the first.
- `Signals.TrendNeedsSixtyDates` takes the set of trading days in the
  request's window as a parameter. The calendar arithmetic showing that 61
  calendar days hold at most 45 trading days is not modelled.
- `Screening.FilterAllStocks` reads the bars of each request from one fixed
  function. It does not thread the cache through the run; the cached request
  is modelled on its own by `Gateway.DailyBars`.
- `fillna("")` on the result table is modelled by `None` columns and by
  reading a missing board as the empty string.
