# Cat dashboard backend: a verified model of its core

The backend indexes the swaps and transfers of one token and serves a dashboard API.
This project models the parts of it that compute things, as opposed to moving data between the chain, the database and HTTP.

- **Address statistics engine.** It replays one address's swaps in time order through a shared accumulator (`CalculationState`).
  - Buys grow a pooled position and cost.
  - Sells realise P&L at the average buy price.
  - A "round" opens when a buy finds the position at zero with no round open. It closes when a sell leaves the position at zero, and is then classified as a profit, a loss or neither.
  - After the loop, a statistics record is built: average buy price, unrealised P&L, ROI and behavioural labels.
- **Response cache.** An in-memory map with per-entry time to live. A lookup evicts an expired entry.
- **Database adapter.** Turns an SQLite-style query into PostgreSQL:
  - `?` placeholders are numbered `$1, $2, …`;
  - four dialect constructs are rewritten by global regular-expression replaces.
- **Daily queries.** The list of `YYYY-MM-DD` dates between two days, the Beijing-time second range of a day, and the all-zero row of a day without trades.
- **API helpers.**
  - Overview price, 24-hour and holder changes, plus the default records.
  - Query parameters and pagination of the transfers listing.
  - The sync progress report.
  - Relative time ranges.
  - Success and error response bodies.

The model is organised by source file:

- `option.dfy`: `Option`.
- `decimal.dfy`: decimal text of naturals and `padStart(2, '0')`.
- `address_stats_types.dfy`: swaps, rounds, the accumulator value and its invariant.
- `address_stats_processors.dfy`: the four processors.
- `address_stats_utils.dfy`: the derived metrics.
- `address_stats.dfy`: the replay loop.
- `cache.dfy`, `pg_adapter.dfy`, `daily_utils.dfy`, `overview_utils.dfy`, `transfers_utils.dfy`, `sync_status.dfy`, `api_utils.dfy`.

How the code is modelled:

- **Processors as methods.** Each processor is a method that updates a `CalculationState` object in place (`modifies state`). Its contract equates the new state with a transition function on the old one (`BuyStep`, `SellStep`, `EndRoundStep`, `TimeStep`). The properties are proved about those functions.
- **The calculator loop.** It keeps the invariant `(state.value, rounds) == Replay(address, swaps[..i])`. `Replay` is the prefix fold of `Step`, and the whole-history properties are lemmas about `Replay`.
- **The replay invariant (`Accounts`).** It holds after every prefix of every history, with no precondition on the swaps:
  - the counters count the swaps;
  - the emitted rounds are numbered 1, 2, 3, … and classified by the sign of their P&L;
  - the profit and loss counters count them;
  - lifetime realised P&L is the rounds' P&L plus the open round's.
- **Round numbers start at 1.** The counter is incremented when a round opens (src/addressStats.processors.ts:26), before the closing record reads it (src/addressStats.processors.ts:123).
- **Zero position with a cost.** A position of zero does not imply a cost of zero. A buy whose floored token amount is 0 but whose USD amount is positive leaves the position at 0 with a positive cost and an open round (`ZeroQuantityBuyKeepsCost`). Any sell processed while the position is zero is not tracked, yet it still closes the open round: the round is recorded with the P&L it had (zero after such a buy, so with no result), and the cost is dropped without entering realised P&L (`UntrackedSellClosesRound`, `ZeroQuantityRoundScenario`).
- **Numbers.**
  - Token amounts (JavaScript `bigint`) are `int`.
  - USD amounts and prices (JavaScript `number`) are exact `real`s.
  - Block times and block numbers are integers.
  - A missing or empty USD amount or price is `None`.
- **Clocks.** The wall clock, where the source reads it, is a parameter `now`.

## Model

| member | source | states |
|---|---|---|
| AddressStatsProcessors.ResultOf | src/addressStats.processors.ts:110-112 | profit exactly when the round P&L is positive, loss exactly when negative, no result exactly at zero |
| AddressStatsProcessors.BuyStep | src/addressStats.processors.ts:13-44 | a buy adds one to the buy count and the bought amounts to volumes, position and cost; when flat with no round open it opens the next numbered round at the buy's time with the buy as its only volume; inside an open round it adds to that round's buy volumes; time, sell and outcome fields are untouched; the accumulator invariant is kept |
| AddressStatsProcessors.ProcessBuy | src/addressStats.processors.ts:13-44 | updates the shared state in place to exactly the `BuyStep` of its old value |
| AddressStatsProcessors.SellStep | src/addressStats.processors.ts:50-94 | a sell always counts and adds to sell volumes; without a tracked position and cost nothing else changes; otherwise both P&L fields grow by the USD received minus the average-price cost of the sold amount, the position drops by the amount, the cost drops by that share but not below zero, and an open round's sell volumes grow; buy volumes, and the round sell volumes of an untracked sell or a sell outside a round, are unchanged; selling the whole position leaves position and cost at zero; a non-negative cost stays non-negative; the accumulator invariant is kept |
| AddressStatsProcessors.ProcessSell | src/addressStats.processors.ts:50-94 | updates the shared state in place to exactly the `SellStep` of its old value |
| AddressStatsProcessors.EndRoundStep | src/addressStats.processors.ts:100-144 | with no round open nothing happens and nothing is emitted; otherwise the emitted record carries the address, the round number, the start time, the closing swap's time, the round's four volumes, its P&L and its classification; the profit or loss counter grows with the sign of the P&L; afterwards no round is open, the round accumulators and the cost are zero, and position, round number, realised P&L, trade counters and lifetime volumes are kept |
| AddressStatsProcessors.EndRound | src/addressStats.processors.ts:100-144 | updates the shared state in place and returns the round record, both exactly as `EndRoundStep` |
| AddressStatsProcessors.TimeStep | src/addressStats.processors.ts:150-159 | one more trade; the last trade time is the swap's; the first trade time is set only while unset (null or 0); every other field is unchanged |
| AddressStatsProcessors.UpdateTimeInfo | src/addressStats.processors.ts:150-159 | updates the shared state in place to exactly the `TimeStep` of its old value |
| AddressStatsProcessors.CalculationState.constructor | src/addressStats.types.ts:72-101 | the shared accumulator object holds the given value |
| AddressStatsUtils.AvgBuyPrice | src/addressStats.utils.ts:12-20 | present exactly for a positive position with a positive cost, and then a positive price at which the whole position costs its cost |
| AddressStatsUtils.UnrealizedPnl | src/addressStats.utils.ts:26-37 | zero without a positive position or a price; otherwise cost plus unrealised P&L equals the position's market value |
| AddressStatsUtils.Roi | src/addressStats.utils.ts:43-51 | present exactly when the USD bought is positive; then ROI times the USD bought is 100 times the total P&L, with the same sign |
| AddressStatsUtils.AddressLabels | src/addressStats.utils.ts:57-94 | each label holds exactly under its condition (first trade within seven days of `now`; at least 3 trades with a buy, a sell and 100 tokens of volume; positive realised P&L; positive total P&L; negative total P&L while holding a positive position) |
| AddressStatsUtils.DeepLossNotProfitable | src/addressStats.utils.ts:82-85 | a deep-loss address holds a positive position and is not profitable in total |
| AddressStatsUtils.BuildAddressStats | src/addressStats.utils.ts:100-144 | the record copies the state's counters, volumes, position, cost, P&L, times and the seven-day figures; the average price and unrealised P&L are `AvgBuyPrice` and `UnrealizedPnl` of the position at the given price; total P&L is realised plus unrealised; ROI is `Roi` of the total over the USD bought; all five labels are `AddressLabels` of the state and the total |
| AddressStatsUtils.CreateInitialState | src/addressStats.utils.ts:150-174 | the fresh accumulator is all zero, has no times and no open round, and satisfies the accumulator invariant |
| AddressStatsCalculator.Step | src/addressStats.ts:46-60 | one loop iteration emits a round only on a sell that leaves the position at zero and no round open; it keeps the accumulator invariant, counts the trade, sets the trade times and keeps the cost non-negative for non-negative buy amounts |
| AddressStatsCalculator.ProcessSwap | src/addressStats.ts:46-60 | the loop body applied in place: the new state and emitted round are exactly `Step` of the old state |
| AddressStatsCalculator.ReplaySnoc | src/addressStats.ts:46-60 | replaying one more swap of a history is one more loop iteration on the replay of the prefix |
| AddressStatsCalculator.ReplayAppend | src/addressStats.ts:46-60 | replaying a history extended by one swap is one `Step` on the history's replay, appending what it emits |
| AddressStatsCalculator.StepKeepsCounts | src/addressStats.ts:46-60 | one iteration keeps the trade counter equal to the number of swaps and the side counters equal to the swaps of each side |
| AddressStatsCalculator.CloseKeepsRounds | src/addressStats.ts:55-58 | an iteration that closes a round appends it as the next numbered, classified round and keeps the outcome counters and realised P&L in step with the rounds |
| AddressStatsCalculator.NoCloseKeepsRounds | src/addressStats.ts:46-60 | an iteration that closes nothing keeps the round records consistent with the new state |
| AddressStatsCalculator.StepKeepsAccounts | src/addressStats.ts:46-60 | one iteration preserves the replay invariant `Accounts` |
| AddressStatsCalculator.ReplayAccounts | src/addressStats.ts:43-60 | the replay invariant holds after every history, by induction on its length |
| AddressStatsCalculator.CalculateAddressStats | src/addressStats.ts:29-83 | an empty history gives no statistics and no rounds; otherwise the emitted rounds are the replay's, the statistics are built from the replayed state at the caller's price or else the stored one, the trade count equals the number of swaps and bounds buys plus sells, and rounds are numbered 1, 2, 3, … |
| AddressStatsCalculator.CountSidesBounded | src/addressStats.ts:50-53 | buys plus sells never exceed the number of swaps |
| AddressStatsCalculator.OutcomeCountsOfClassified | src/addressStats.processors.ts:110-118 | among classified rounds, profits plus losses are at most all rounds, and exactly all when no round has zero P&L |
| AddressStatsCalculator.RoundOutcomeCounts | src/addressStats.processors.ts:114-118 | after any replay the profit and loss counters add up to at most the emitted rounds, with equality exactly when no round broke even |
| AddressStatsCalculator.RoundIndicesSequential | src/addressStats.processors.ts:26 | emitted rounds are numbered 1, 2, 3, … and the round counter is the number of emitted rounds plus one while a round is open |
| AddressStatsCalculator.RealizedPnlDecomposes | src/addressStats.processors.ts:82-83 | lifetime realised P&L is the sum of the emitted rounds' P&L plus the open round's |
| AddressStatsCalculator.TradeCounts | src/addressStats.processors.ts:158 | the trade counter equals the number of swaps and bounds buys plus sells |
| AddressStatsCalculator.RoundClosesOnlyAtZero | src/addressStats.ts:55-58 | the last swap emits at most one round, and only when it is a sell leaving position and cost at zero with no round open |
| AddressStatsCalculator.ReplayCostNonNegative | src/addressStats.processors.ts:87 | with non-negative USD amounts the cost basis is never negative |
| AddressStatsCalculator.FirstLastTradeTimes | src/addressStats.processors.ts:154-157 | for nonzero block times the first and last trade times are those of the first and last swap, and unset for no swaps |
| AddressStatsCalculator.ZeroQuantityBuyKeepsCost | src/addressStats.processors.ts:17-37 | a buy of zero tokens for a positive USD amount leaves a zero position with a positive cost and an open round |
| AddressStatsCalculator.UntrackedSellClosesRound | src/addressStats.ts:52-58 | a sell processed at position zero realises nothing but still closes the open round: the record is the round as it stood, realised P&L is unchanged, and position and cost end at zero |
| AddressStatsCalculator.ZeroQuantityRoundScenario | src/addressStats.processors.ts:61-64 | a 0-token buy for $10 followed by a sell of 5 tokens emits round 1 with zero P&L and no result, and the $10 cost disappears without a realised loss |
| AddressStatsCalculator.BuyOpensRound | src/addressStats.processors.ts:25-43 | a buy while flat with no round open opens the next round at its time, with position, cost and round buy volumes equal to the buy, and leaves realised P&L and outcome counters unchanged |
| AddressStatsCalculator.SellAllClosesRound | src/addressStats.processors.ts:61-93 | selling the whole tracked position inside a round closes it: the record carries the round's volumes including this sell and P&L that adds the sell's proceeds minus the whole cost; the counters follow its sign; position and cost become zero |
| AddressStatsCalculator.ProfitableRoundScenario | src/addressStats.ts:46-60 | buying 100 tokens for $100 and selling them for $150 emits round 1 as a $50 profit |
| AddressStatsCalculator.LosingRoundScenario | src/addressStats.ts:46-60 | buying 10 for $20 and selling them for $15 emits round 1 as a $5 loss |
| AddressStatsCalculator.SecondRoundOpensScenario | src/addressStats.ts:46-60 | a buy after the losing round trip opens round 2 with its own cost and zero round P&L |
| AddressStatsCalculator.TwoRoundsScenario | src/addressStats.ts:46-60 | a loss of $5 followed by a profit of $20 emits rounds 1 and 2 with those results and a lifetime P&L of $15 |
| ResponseCache.GetStep | src/api/cache.ts:14-24 | a lookup returns data exactly for a present, unexpired key; an expired key is deleted and nothing else changes |
| ResponseCache.SetStep | src/api/cache.ts:26-32 | a store maps the key to the data stamped with `now` and the given time to live, and keeps every other key |
| ResponseCache.SimpleCache.constructor | src/api/cache.ts:11-12 | a new cache is empty |
| ResponseCache.SimpleCache.Get | src/api/cache.ts:14-24 | returns and updates the map in place exactly as `GetStep` |
| ResponseCache.SimpleCache.Set | src/api/cache.ts:26-32 | updates the map in place exactly as `SetStep`, with a default time to live of 5000 ms |
| ResponseCache.SimpleCache.Clear | src/api/cache.ts:34-36 | empties the map |
| ResponseCache.GetAfterSet | src/api/cache.ts:14-32 | a lookup after a store returns the stored data exactly while no more than the time to live has passed |
| ResponseCache.OtherKeysUnaffected | src/api/cache.ts:14-32 | a lookup or a store of one key does not change what a lookup of another key returns |
| ResponseCache.GetAfterClear | src/api/cache.ts:34-36 | after a clear every lookup misses |
| ResponseCache.ExpiredEntryEvicted | src/api/cache.ts:18-21 | a lookup of an expired entry misses and deletes exactly that key; repeating it misses again |
| PgAdapter.NoPlaceholderLeft | src/db/pg-adapter.ts:66-69 | no `?` survives the placeholder numbering |
| PgAdapter.NumberPlaceholdersIdentity | src/db/pg-adapter.ts:66-69 | a query without `?` is left unchanged |
| PgAdapter.NumberPlaceholdersConcat | src/db/pg-adapter.ts:66-69 | numbering a concatenation numbers the second part after the first part's placeholders |
| PgAdapter.PlaceholderNumber | src/db/pg-adapter.ts:66-69 | the `?` with k placeholders before it becomes `$(k+1)` |
| PgAdapter.ReplaceAllNoMatch | src/db/pg-adapter.ts:73-83 | a global literal replace leaves a text without the pattern unchanged |
| PgAdapter.ReplaceAllCopiesUnmatched | src/db/pg-adapter.ts:73-83 | text before which no match starts is copied unchanged |
| PgAdapter.ReplaceAllAtMatch | src/db/pg-adapter.ts:73-83 | a match is replaced and the search resumes after it (matches do not overlap) |
| PgAdapter.ReplaceAllKeepsOut | src/db/pg-adapter.ts:73-83 | a global replace introduces no character that is in neither the text nor the replacement |
| PgAdapter.StrftimeMatch | src/db/pg-adapter.ts:76 | a match is found exactly when the text starts with `strftime('%s',` in any letter case, and its length covers the whole call |
| PgAdapter.ReplaceStrftimeNoMatch | src/db/pg-adapter.ts:76 | a text with no epoch call is left unchanged |
| PgAdapter.ReplaceStrftimeKeepsOut | src/db/pg-adapter.ts:76 | the epoch rewrite introduces no character that is in neither the text nor the epoch expression |
| PgAdapter.StrftimeRecognised | src/db/pg-adapter.ts:76 | the call in any letter case with any run of whitespace after the comma becomes `EXTRACT(EPOCH FROM NOW())::INTEGER`, and the search resumes after it |
| PgAdapter.StrftimeUpperCase | src/db/pg-adapter.ts:76 | the upper-case spelling is recognised |
| PgAdapter.RewriteDialectIdentity | src/db/pg-adapter.ts:72-83 | a query with none of the four constructs passes the rewrites unchanged |
| PgAdapter.ReplacePlaceholders | src/db/pg-adapter.ts:61-69 | the loop numbers each `?` as `$1, $2, …` with none left, and builds one parameter per placeholder: the caller's parameter at that position, or none past the end of the caller's list |
| PgAdapter.ConvertQuery | src/db/pg-adapter.ts:60-86 | the converted query is the dialect rewrite of the numbered query and contains no `?`; the parameter list is that of the placeholder pass |
| PgAdapter.PlainQueryUnchanged | src/db/pg-adapter.ts:60-86 | a query with no placeholder and no rewritten construct is returned unchanged |
| PgAdapter.InsertVariants | src/db/pg-adapter.ts:73-83 | `INSERT OR IGNORE INTO` and `INSERT OR REPLACE INTO` become `INSERT INTO`, and the autoincrement key becomes `SERIAL PRIMARY KEY` |
| Decimal.NatToString | src/db/queries/daily.utils.ts:18-19 | the decimal text of a number is nonempty digits without a leading zero, one digit exactly below 10 |
| Decimal.NatToStringRoundTrip | src/db/queries/daily.utils.ts:18-19 | reading the text back gives the number |
| Decimal.NatToStringInjective | src/db/queries/daily.utils.ts:18-19 | distinct numbers have distinct texts |
| Decimal.Pad2 | src/db/queries/daily.utils.ts:18-19 | two-digit padding gives at least two digits, exactly two below 100 |
| Decimal.Pad2RoundTrip | src/db/queries/daily.utils.ts:18-19 | padding adds only leading zeros: the value reads back |
| DailyUtils.NextDay | src/db/queries/daily.utils.ts:21 | the next calendar day is a valid date in the same year, or 1 January of the next year |
| DailyUtils.NextDayNumber | src/db/queries/daily.utils.ts:21 | the next day's day number is one higher |
| DailyUtils.DayAfterNumber | src/db/queries/daily.utils.ts:21 | stepping n days adds n to the day number |
| DailyUtils.DayNumberInjective | src/db/queries/daily.utils.ts:16 | distinct valid dates have distinct day numbers, so the loop's date comparison is a day-number comparison |
| DailyUtils.FormatDateShape | src/db/queries/daily.utils.ts:17-20 | for four-digit years the text is `YYYY-MM-DD` |
| DailyUtils.FormatDateInjective | src/db/queries/daily.utils.ts:17-20 | distinct valid dates print differently |
| DailyUtils.DatesBetween | src/db/queries/daily.utils.ts:15-22 | the loop emits one text per day from the first to the last day inclusive (none when the first is later), entry i being the text of the day i days after the first |
| DailyUtils.GenerateDateRange | src/db/queries/daily.utils.ts:10-25 | an unparsable bound gives an empty list; otherwise as `DatesBetween` |
| DailyUtils.DateRangeEndpoints | src/db/queries/daily.utils.ts:15-22 | for start not after end the list starts at the start date and its last entry is the end date |
| DailyUtils.DateRangeDistinct | src/db/queries/daily.utils.ts:15-22 | the listed days strictly increase and their texts are distinct |
| DailyUtils.GetDayTimeRange | src/db/queries/daily.utils.ts:49-53 | the range starts at Beijing midnight of the day, a multiple of 86400 seconds after 1970-01-01 Beijing midnight, and spans 86399 seconds |
| DailyUtils.DayTimeRangesTile | src/db/queries/daily.utils.ts:49-53 | the next day's range starts one second after this day's ends |
| DailyUtils.DayTimeRangeContains | src/db/queries/daily.utils.ts:49-53 | a second lies in the range of at most one day |
| DailyUtils.CreateDefaultDailyTradeStats | src/db/queries/daily.utils.ts:31-43 | the row carries the date, every count 0 and every token total the text "0" |
| OverviewUtils.CalculatePriceChange | src/api/handlers/overview.utils.ts:12-22 | the change value is current minus open; the percentage is the change relative to a positive open (0 otherwise) and is positive or negative exactly when the price rose or fell from a positive open |
| OverviewUtils.PriceChangeRoundTrip | src/api/handlers/overview.utils.ts:12-22 | growing a positive open by the percentage gives the current price back |
| OverviewUtils.Calculate24HPriceChange | src/api/handlers/overview.utils.ts:28-44 | 0 when either price is missing or the past price is not positive; otherwise the change relative to the past price, in percent |
| OverviewUtils.Price24HMatchesPriceChange | src/api/handlers/overview.utils.ts:28-44 | with both prices present the 24-hour change equals the price-change percentage from the past price |
| OverviewUtils.CalculateHoldersChange | src/api/handlers/overview.utils.ts:50-72 | without an open count no change; otherwise open plus change is current, and the percentage is relative to a positive open (0 otherwise) |
| OverviewUtils.HoldersChangeMatchesPriceChange | src/api/handlers/overview.utils.ts:50-72 | the holder change is the price-change formula applied to holder counts |
| OverviewUtils.CreateDefaultPriceData | src/api/handlers/overview.utils.ts:78-85 | the default price record is all zero |
| OverviewUtils.CreateDefaultLpData | src/api/handlers/overview.utils.ts:91-102 | the default pool record has zero amounts and no midnight snapshot |
| OverviewUtils.CreateDefaultHoldersData | src/api/handlers/overview.utils.ts:108-115 | the default holder record is all zero |
| OverviewUtils.DefaultPriceIsNoChange | src/api/handlers/overview.utils.ts:78-85 | the default price record is what the change formula gives for a zero price |
| OverviewUtils.DefaultHoldersIsNoChange | src/api/handlers/overview.utils.ts:108-115 | the default holder record is what the change formula gives for zero holders, with or without an open count |
| TransfersUtils.OrElse | src/api/handlers/transfers.utils.ts:17-21 | a parsed value that is missing, NaN or 0 falls back to the default; any other value is kept |
| TransfersUtils.BuildTransfersQueryParams | src/api/handlers/transfers.utils.ts:13-47 | the query fetches page-size rows at the pagination's offset; the page is the requested one, or 1 when missing, NaN or 0; page size is the requested one, else the limit, which defaults to 50; neither is ever 0; an explicit offset wins, otherwise the offset is (page − 1) × limit; the filters and the time bounds pass through |
| TransfersUtils.BuildTransfersQueryParamsCorrected | src/api/handlers/transfers.utils.ts:21 | the same records with the default offset (page − 1) × page size |
| TransfersUtils.PageOffsetSkipsRows | src/api/handlers/transfers.utils.ts:21 | as written, pages 1 and 2 of size 20 start at rows 0 and 50 |
| TransfersUtils.CorrectedPagesAdjacent | src/api/handlers/transfers.utils.ts:21 | corrected, page p + 1 starts where page p ends |
| TransfersUtils.CeilDiv | src/api/handlers/transfers.utils.ts:68 | the rounded-up quotient: the least multiple count covering the total for a positive divisor, and its mirror for a negative one |
| TransfersUtils.CreatePaginationResponse | src/api/handlers/transfers.utils.ts:63-70 | echoes total, page and page size; the page count is absent exactly for page size 0, and for a positive size it is the fewest pages that hold the total |
| TransfersUtils.EveryRowOnAPage | src/api/handlers/transfers.utils.ts:63-70 | with the corrected offset every row of the total lies in the window of one of the reported pages |
| SyncStatusReport.GetSyncStatus | src/api/handlers/sync.handler.ts:25-96 | no stored state: not started with everything remaining; unknown current block: error with nothing counted; otherwise totals and synced counts from the start block (or block 0); caught up: synced at 100% with nothing remaining; behind: syncing, synced plus remaining is the total, progress is their ratio in percent and below 100 |
| ApiUtils.ParseTimeRange | src/api/utils.ts:8-29 | no range or the empty string gives no bounds; any other range ends now; `1h`, `24h` and `7d` start 3600, 86400 and 604800 seconds before now, and other names give no start |
| ApiUtils.TimeRangeWindow | src/api/utils.ts:8-29 | a bounded range ends now and starts within the past week, strictly before now |
| ApiUtils.TimeRangesNested | src/api/utils.ts:17-25 | the week window contains the day window, which contains the hour window |
| ApiUtils.SuccessResponse | src/api/utils.ts:68-77 | a success body with the data, with a count field exactly when a count is given |
| ApiUtils.ErrorResponse | src/api/utils.ts:57-63 | a failure body with the error's message, or "Internal server error" when there is none, and the given status (default 500) |

## Findings

| source | as written | input that shows it | evidently intended | confidence | as-written member | corrected member |
|---|---|---|---|---|---|---|
| src/api/handlers/transfers.utils.ts:21 | without an explicit offset, the offset is (page − 1) × limit, while each page fetches page-size rows | page=2, pageSize=20, no limit: page 1 covers rows 0–19 and page 2 starts at row 50, so rows 20–49 are never listed | offset (page − 1) × pageSize | not executed | TransfersUtils.PageOffsetSkipsRows | TransfersUtils.CorrectedPagesAdjacent |

`TransfersUtils.BuildTransfersQueryParams` keeps the offset as written. `TransfersUtils.BuildTransfersQueryParamsCorrected` pages by the page size. `TransfersUtils.EveryRowOnAPage` shows that, with the corrected offset, every row of the reported total is reachable.

## Left out

- Database, RPC and HTTP I/O are not modelled. Swaps, the stored latest price, the seven-day figures, the sync row and the current block number are inputs. Emitted rounds, statistics and response bodies are outputs. `res.json`/`res.status` and logging are not modelled.
- `calculateAllAddresses` and the other batch entry points of the calculator are not modelled: they only loop over addresses in concurrent batches.
- The `catch` branches of the handlers are not modelled. A failed block-number call is `None`.
- Number parsing and formatting are not modelled: `parseFloat`, `parseInt`, `Number(...)`, `toFixed`, `toString`. USD amounts, prices and ratios are exact reals. Token amounts are the already floored integers. Parsed request integers are `Option<int>`, with NaN as `None`.
- AddressStatsUtils.AvgBuyPrice: the result is not rounded to 8 decimals (`toFixed(8)`).
- AddressStatsUtils.Roi: the result is not rounded to 4 decimals.
- OverviewUtils.CalculatePriceChange: the rounding of the percentage to 2 decimals and of the change value to 6 decimals (`toFixed`, then `parseFloat`) is not modelled; both are exact reals.
- OverviewUtils.Calculate24HPriceChange: prices arrive already parsed, and the two-decimal rounding is not modelled.
- OverviewUtils.CalculateHoldersChange: the two-decimal rounding of the percentage is not modelled.
- SyncStatusReport.GetSyncStatus: progress is not rounded to two decimals. Block numbers are naturals, because negative block numbers do not occur.
- Floating-point effects are not modelled: precision loss in `Number(bigint)`, and the `Number(positionCat) === 0` guard in the sell processor. That guard cannot fire once the position is nonzero in exact arithmetic, so it is not modelled.
- TransfersUtils.CreatePaginationResponse: the page count for a zero page size (`Infinity`, or `NaN` for a zero total) is `None`.
- DailyUtils.GenerateDateRange: parsing the `YYYY-MM-DD` strings with `new Date(... + 'T00:00:00')` is not modelled. A bound that does not parse is `None`. Dates are proleptic Gregorian dates in a fixed time zone. JavaScript's year range limit and the local time zone of the server are not modelled.
- DailyUtils.GetDayTimeRange: the day is a parsed date, not a string.
- `parseTimestamp`, `getTodayDate` and `getTodayBeijingDate` are not modelled: they read the clock or parse free-form date strings. Where other operations read the clock, it is the parameter `now`.
- ResponseCache.SimpleCache.Get: the clock is the parameter `now` (milliseconds). The `any`-typed entries are a type parameter.
- AddressStatsUtils.AddressLabels: the clock is the parameter `now` (seconds).
