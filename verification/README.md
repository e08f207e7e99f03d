# Algo-Trading core, modelled in Dafny

This project models the deterministic core of a small NIFTY algo-trading toolkit.
It has three Python programs:

- **The backtest** (`backtest.py`; `scripts/backtest.py` is the same file). It has
  three parts:
  - an SMA-crossover strategy with a profit target and a stop loss, driven bar by bar
    by the backtesting library;
  - `load_data`, which prepares a CSV table for the library's data feed;
  - the trade summary's win probability.
- **The backfill** (`scripts/historical_data_fetch.py`). It walks 2005-01-01 to
  2025-01-01 in 30-day chunks. Each chunk is fetched with up to three attempts. A
  successful reply's candles are normalised and collected. A failed chunk is logged as
  missing.
- **The one-shot export** (`scripts/main.py`). It fetches January 2025 once and
  normalises the candles the same way. It writes them to the CSV file that the
  backtest opens.

The modules are:

- `Common`: Option and Result.
- `Candles`: timestamp split, time/zone extraction and column selection, shared by
  both fetch scripts.
- `Provider`: request parameters and the shapes of the provider's replies.
- `Strategy`: the strategy as a class. Its methods are specified by pure decision and
  state functions, and properties over single bars and whole event runs are proved.
- `TradeSummary`: the analyzer lookups and the win probability.
- `LoadData`: tables as named columns, and `load_data`.
- `Backfill`: the retry loop and the chunk loop as methods. They are specified by
  `Fetch`, `ChunkResults` and `Replay`, and the bookkeeping lemmas are proved about
  those functions.
- `Export`: `scripts/main.py` as a function of the provider's reply, and its link to
  the backfill and to `load_data`.

Modelling conventions:

- **Days** are day numbers (days since 1970-01-01). 2005-01-01 is 12784 and
  2025-01-01 is 20089.
- **The provider** is a function from a request and an attempt number to that
  attempt's reply (`Backfill.Network`). A reply is `Raised`, `NoReply`, or a
  dictionary whose `"data"` entry is absent, null, or a list of records.
- **The crossover sign** of each bar is an input to `Next`. The broker's position is a
  field that only a Completed fill changes, by one unit either way (a unit stake).
- **Sleeps** are ghost counters: the 5 s retry pauses in `Fetched.sleeps`, the 0.4 s
  rate-limit pauses in the `pauses` result of `Backfill.Run`.

## Model

| member | source | states |
|---|---|---|
| Strategy.Decide | backtest.py:71-113 | A bar with a pending order never submits. An entry is submitted iff nothing is pending, the position is flat and the crossover is non-zero. The entry is a buy iff the crossover is positive. An exit needs an open position and a truthy entry price, and always trades against the position: sell from long, buy from short. |
| Strategy.SmaTargetStopStrategy.constructor | backtest.py:31-47 | The defaults are target 0.003, stop loss 0.001 and windows 10/50. The strategy starts with no pending order, no entry price and a flat position. |
| Strategy.SmaTargetStopStrategy.Next | backtest.py:71-113 | `next` takes the decision `Decide` gives for the old state. A submitted order's side then occupies the pending slot, and nothing else changes. |
| Strategy.SmaTargetStopStrategy.NotifyOrder | backtest.py:49-62 | A Completed fill of either side records its price as the entry price, clears the pending order and moves the position one unit. Any other status changes nothing. |
| Strategy.PendingOrderBlocks | backtest.py:79-80 | While an order is pending, a bar submits nothing and leaves every field as it was. |
| Strategy.FlatFollowsCrossover | backtest.py:83-91 | When flat with nothing pending, a positive crossover buys, a negative one sells, and zero does nothing. |
| Strategy.LongExitLadder | backtest.py:94-102 | For a long position with a truthy entry price e: sell at target if close >= e(1+target), else sell at stop if close <= e(1-stop), else hold. |
| Strategy.ShortExitLadder | backtest.py:105-113 | For a short position: buy at target if close <= e(1-target), else buy at stop if close >= e(1+stop), else hold. |
| Strategy.NoExitWithoutEntryPrice | backtest.py:94-113 | With an open position and an entry price of None or 0, no exit is considered. |
| Strategy.TargetBeforeStop | backtest.py:94-113 | When both thresholds hold on one bar (possible with a negative stop fraction), the exit is the profit one. |
| Strategy.ExitPriorityExample | backtest.py:97-102 | Entry 100.0 and close 100.30 with the defaults give a profit exit. |
| Strategy.NextKeepsEntryAndPosition | backtest.py:71-113 | `next` never assigns the entry price or the position. |
| Strategy.OnlyCompletedChangesState | backtest.py:54 | A notification that is not Completed changes nothing, so that order stays pending for good. |
| Strategy.ExitFillOverwritesEntryPrice | backtest.py:54-62 | The fill that closes a position leaves the position flat with the exit price as the entry price. It does not clear the entry price. |
| Strategy.StepKeepsOnePosition | backtest.py:49-113 | One bar or one notification keeps at most one unit open in either direction. A pending order either opens from flat or closes the position. |
| Strategy.RunKeepsOnePosition | backtest.py:49-113 | Every event run in which fills arrive only for the pending order keeps that invariant. |
| Strategy.LongRoundTripScenario | backtest.py:71-113 | Crossover up, a fill at 100, a quiet bar, then a bar at 100.5: one entry and one profit exit, ending flat with entry price 100.5. |
| TradeSummary.Lookup | backtest.py:185-189 | A missing key at either level reads as 0. Otherwise the stored count is returned. |
| TradeSummary.WinProbability | backtest.py:190 | With closed trades the result times the total equals 100 times the winners. With none it is 0, not a division. |
| TradeSummary.Summarize | backtest.py:184-190 | The total comes from `total.closed`, the winners from `won.total`, and long, short and lost from `long.total`, `short.total` and `lost.total`. The probability is derived from the total and the winners. |
| TradeSummary.WinProbabilityBounds | backtest.py:190 | Given 0 <= won <= total, the result lies in [0, 100]. It is 100 iff every closed trade won, and 0 iff none won or there were none. |
| TradeSummary.NoTradesGivesZero | backtest.py:185-190 | An analysis with no `closed` entry reports 0 trades and probability 0. |
| LoadData.Select | backtest.py:146 | Selecting labels succeeds iff every label exists. It then returns exactly those columns in that order. Otherwise it fails with KeyError naming the missing labels. |
| LoadData.Assign | backtest.py:141 | Assigning a scalar gives a column of that value in every row. Every other column is kept. |
| LoadData.LowercasedColumn | backtest.py:132-137 | After the rename, `open` (and high, low, close) exists iff the file had `Open` or `open`, and holds that column's cells. |
| LoadData.WithVolume | backtest.py:139-143 | `volume` is the file's Volume column, or 0 in every row when the file has none. Other columns are kept. |
| LoadData.Rename | backtest.py:132-137 | Every label is replaced by its new name when it has one and kept otherwise, at the same position. Every column's cells and the row count are unchanged. |
| LoadData.Load | backtest.py:119-146 | Load succeeds iff Date and Time exist, Date holds text that takes `+ " "`, no row pairs a date with a numeric time, and each of Open/High/Low/Close (in either case) exists. A missing Date raises KeyError, then a Date without text raises TypeError, then a missing Time raises KeyError, then a row with a date and a numeric time raises TypeError. Missing times only give a missing index value. The result has exactly open, high, low, close, volume, in that order, carrying the file's cells, with volume defaulting to 0. |
| Candles.Split | scripts/historical_data_fetch.py:87 | `str.split` gives at least one piece, and no piece contains the separator. |
| Candles.JoinSplit | scripts/historical_data_fetch.py:87 | Re-joining the pieces of a split gives back the string. |
| Candles.SplitJoin | scripts/historical_data_fetch.py:87 | Splitting separator-free pieces after joining them gives back the pieces. |
| Candles.ExtractTime | scripts/historical_data_fetch.py:88 | The search fails iff the text is all '+'. Group 1 is a non-empty run without '+'. Group 2 is present only as a `+HH:MM` offset. |
| Candles.ExtractTimeOffset | scripts/historical_data_fetch.py:88 | For t without '+' followed by an empty or `+HH:MM` suffix z, the groups are exactly t and z. |
| Candles.SplitWidth | scripts/historical_data_fetch.py:87 | The split's column count is the largest piece count over the batch. |
| Candles.SplitStamp | scripts/historical_data_fetch.py:87-88 | A zone implies a time and is a `+HH:MM` offset. Time has no '+' or 'T', and Date has no 'T'. |
| Candles.NormalizeRecord | scripts/historical_data_fetch.py:86-89 | A row keeps the record's four prices and its split timestamp, and drops DateTime and Volume. |
| Candles.NormalizeBatch | scripts/historical_data_fetch.py:86-89 | The rewrite succeeds iff every timestamp has at most one 'T' and some has exactly one. It then maps every record to its row, in order. |
| Candles.StampRoundTrip | scripts/historical_data_fetch.py:86-89 | `D + "T" + t + z` (D without 'T'; t non-empty without 'T' or '+'; z empty or `+HH:MM`) splits into (D, t, z). Re-joining the parts gives back the timestamp. |
| Candles.ExampleStamp | scripts/historical_data_fetch.py:87-88 | `2025-01-05T09:15:00+05:30` splits into 2025-01-05, 09:15:00 and +05:30, and re-joins to itself. |
| Candles.UtcSuffixStaysInTime | scripts/historical_data_fetch.py:88 | A `Z` suffix is not a zone. It stays inside Time, and the zone is NaN. |
| Candles.NegativeOffsetStaysInTime | scripts/historical_data_fetch.py:88 | A `-04:00` offset is not a zone. It stays inside Time. |
| Provider.HistoricParam | scripts/historical_data_fetch.py:51-57 | The request carries the configured exchange, token and interval, and runs from 09:00 on the first day to 15:30 on the last. |
| Provider.Usable | scripts/historical_data_fetch.py:62 | A usable reply is a dictionary carrying a non-empty list of records. A dictionary whose `"data"` is missing or null is never usable, whatever other keys it has. |
| Provider.UsableMeansRecords | scripts/historical_data_fetch.py:62 | A reply is accepted iff it is a dictionary whose `"data"` is a non-empty list. |
| Backfill.FetchFromMeaning | scripts/historical_data_fetch.py:59-71 | From attempt a on, attempts before the last call all failed. Data is returned iff the last call was usable, and it is that reply's records with one sleep per failed attempt. None is returned iff all remaining attempts failed, after 3 calls and 3 sleeps. |
| Backfill.FetchMeaning | scripts/historical_data_fetch.py:59-71 | The provider is called 1 to 3 times, and the fetch stops at the first usable reply. It returns None iff all three attempts failed, after three sleeps. Data it returns is non-empty. |
| Backfill.RetryIsTransparent | scripts/historical_data_fetch.py:59-63 | If attempt a is the first usable one, the fetch returns exactly its records after a + 1 calls. |
| Backfill.FetchHistoricalData | scripts/historical_data_fetch.py:50-71 | The loop's result, its call count and its sleep count are those of `Fetch`. Data it returns is non-empty. |
| Backfill.ChunkCount | scripts/historical_data_fetch.py:73-95 | The loop stops at the first 30-day step not before the end date. Every earlier step starts before it. |
| Backfill.ChunkCountIsCeiling | scripts/historical_data_fetch.py:73-95 | The number of chunks is ceil((end - start) / 30), or 0 for an empty span. |
| Backfill.ChunksTileTheSpan | scripts/historical_data_fetch.py:73-76 | Every chunk starts before the end date and starts where the previous one ended. The last chunk ends at or past the end date, by less than 30 days. |
| Backfill.ConfiguredSpan | scripts/historical_data_fetch.py:36-43 | 2005-01-01 to 2025-01-01 is 244 chunks. The last ends on 2025-01-16, 15 days past the end date. |
| Backfill.BoundarySessionRequestedTwice | scripts/historical_data_fetch.py:55-56 | For two adjacent chunks that a run fetches, every session minute of their boundary day is requested by both. |
| Backfill.ClassifyMeaning | scripts/historical_data_fetch.py:81-92 | A chunk contributes nothing iff the fetch returned None or an empty list. Otherwise it contributes the normalised rows, or the split's error. |
| Backfill.ChunkResultsAre | scripts/historical_data_fetch.py:73-95 | The list of per-chunk contributions exists and is unique for each length. |
| Backfill.CrashIsFinal | scripts/historical_data_fetch.py:87 | Once the split raises, no later chunk changes the outcome. |
| Backfill.LoopGuard | scripts/historical_data_fetch.py:73 | The loop condition holds exactly for the first `ChunkCount` chunks. |
| Backfill.ProcessChunk | scripts/historical_data_fetch.py:79-92 | One loop body records exactly this chunk's contribution in the ledger. |
| Backfill.Record | scripts/historical_data_fetch.py:81-92 | A rejected batch is an error carrying the split's error. Rows are appended to `all_data`, setting first_date only if unset and last_date to the chunk's end. A chunk without data appends its (from, to) pair to the missing list and changes nothing else. |
| Backfill.Run | scripts/historical_data_fetch.py:41-95 | The loop visits exactly `ChunkCount` chunks, and its outcome is the replay of their contributions in order: it finishes with the ledger they build, or stops at the first chunk the split rejects. It pauses once after every chunk it completes. |
| Backfill.IndicesMembers | scripts/historical_data_fetch.py:81-92 | A chunk is a success iff it returned data, and a failure iff it did not. |
| Backfill.IndicesPartition | scripts/historical_data_fetch.py:81-92 | The successes and failures together number the chunks. Both lists are in chunk order. |
| Backfill.ReplayStep | scripts/historical_data_fetch.py:81-92 | A chunk with data appends its rows, sets first_date only if unset, and sets last_date to its end. A chunk without data appends exactly its (from, to) pair to the missing list. |
| Backfill.CollectedRows | scripts/historical_data_fetch.py:86-90 | `all_data` holds, in chunk order, the normalised rows of exactly the chunks that returned data. |
| Backfill.NamingDates | scripts/historical_data_fetch.py:47-84 | first_date is the start of the first chunk with data, never overwritten, and last_date is the end of the latest one. Both are None iff no chunk had data. |
| Backfill.MissingRanges | scripts/historical_data_fetch.py:91-92 | `missing_dates` lists the (from, to) pair of every empty chunk, in order. |
| Backfill.FinishedIffNoRejection | scripts/historical_data_fetch.py:87 | A run walks every chunk iff the split rejected none of them. |
| Backfill.CrashMeaning | scripts/historical_data_fetch.py:87 | A run that stops early stops at the first chunk whose batch the split rejects, with that chunk's error. |
| Backfill.Persist | scripts/historical_data_fetch.py:97-111 | The HDF artifact exists iff `all_data`, first_date and last_date are all set. It is named by symbol, interval and the two dates and holds the chunks' rows in order. The missing log exists iff some range is missing, and lists exactly those ranges. |
| Backfill.PersistMeaning | scripts/historical_data_fetch.py:98-111 | The HDF file is written iff some chunk had data, and is named after the first chunk's start and the last chunk's end. The missing log is written iff some chunk was empty. |
| Export.TwoDigits | scripts/main.py:51 | Helper that renders the model's `Clock` values (the script writes the literals 09:00 and 15:30): a number below 100 is written as two digits that read back as the number. |
| Export.ClockText | scripts/main.py:51-52 | Helper that renders the model's `Clock` values as `HH:MM`: five characters with ':' in the middle, whose digits read back as the hour and the minute. |
| Export.WireFields | scripts/main.py:47-53 | Each key of the request dictionary holds its own field: the two dates joined to their clock texts by a space, and the exchange, token and interval. |
| Export.SessionClockTexts | scripts/main.py:51-52 | The session clocks are written 09:00 and 15:30. |
| Export.DayIsRecoverable | scripts/main.py:51-52 | A `day + " " + HH:MM` field splits back into the day and the clock text. |
| Export.RequestWindow | scripts/main.py:47-53 | The dictionary sent has fromdate `<from> 09:00` and todate `<to> 15:30` with the configured exchange, token and interval. Each day can be read back from its field. |
| Export.NoHistoricalData | scripts/main.py:63 | A returned reply is rejected iff it is None, or its `"data"` is missing, null or an empty list. |
| Export.RejectionIsUnusable | scripts/main.py:63-64 | The export rejects a returned reply iff the backfill's acceptance test fails on it. |
| Export.ExportCandles | scripts/main.py:56-95 | The script fails on the call iff it raised, and fails with no data iff the reply is unusable. It writes a file iff the reply is usable and the split is two columns wide. The file has one row per record, in order, under the header Date..Close, Return, at the named path. |
| Export.SameRowsAsBackfill | scripts/main.py:70-79 | For a usable reply, the export writes a file iff the backfill would keep the chunk, with the same rows. The split fails with the same error in both. |
| Export.ExportFileIsBacktestInput | scripts/main.py:86 | The written file is `h_data/NIFTY_ONE_MINUTE_2025-01-01_2025-01-31.csv`, the file the backtest opens. |
| Export.OutputName | scripts/main.py:86 | The path lies in `h_data/` and ends in `.csv`. Its length is the parts' lengths plus the fixed separators and suffix. |
| Export.OutputNameInjective | scripts/main.py:86 | For one symbol and interval, with from-dates of equal length, two windows get the same name iff they are the same window. |
| Export.CsvFrame | scripts/main.py:79-95 | The written table is well formed, with the columns Date, Time, Timezone, Open, High, Low, Close, Return and one row per candle. |
| Export.CsvExtendsNormalized | scripts/main.py:79-92 | The file's columns are the normalised columns followed by Return. |
| Export.CsvColumnsFacts | scripts/main.py:79 | The file has Date, Time and the capitalised price columns, and no lowercase price column and no Volume. |
| Export.CsvFramePrices | scripts/main.py:79 | The file's Open/High/Low/Close columns hold the rows' prices. |
| Export.LoadsWithZeroVolume | backtest.py:119-146 | A table with the export's columns loads iff its Date column holds text and no row pairs a date with a numeric time. It then has volume 0 in every row. |
| Export.CsvFrameStamps | scripts/main.py:73-79 | The file's Date column always holds text, and its Time column holds only texts and missing cells, so the join at backtest.py:128 goes through. |
| Export.StampColumnsJoin | backtest.py:128 | A column of dates takes `+ " "`, and a column of optional times, present or missing, can be added to it. |
| Export.BacktestReadsExport | backtest.py:119-146 | The exported candles always load in the backtest. A candle without a time of day only gives a missing index value. Open/high/low/close are the candles' prices, and volume is 0 in every row. |

## Left out

- Login, TOTP generation and token exchange (historical_data_fetch.py:11-29,
  main.py:11-37) are network-client calls with no logic to verify. `getCandleData`
  is represented only by its replies.
- Logging, `print`, and the summary table's text are output only.
- `time.sleep` is output only: the retry and rate-limit pauses are counted in ghost
  counters, with no timing.
- File I/O is left out: `os.makedirs`, the HDF and missing-log writes, and the CSV
  write and read. `Backfill.Persist` describes what would be written.
  `Export.CsvFrame` assumes the CSV read gives back the written cells. Re-parsing is
  not modelled: a Date column of bare digits would be read as integers. A Time column
  of empty cells is read as float NaN, but its cells are missing either way, so the
  join still goes through.
- Date formatting (`strftime`) and parsing (`pd.to_datetime(errors='coerce')`) are
  left out. The backfill uses day numbers, and the Date_Time index that `load_data`
  builds is not modelled.
- The values of the Return column (main.py:90-92) are left out. They need float
  rounding and `"%.2f %"` formatting. `Export.BacktestReadsExport` holds for any
  Return texts.
- The SMA and CrossOver indicators, Cerebro, the broker, and the trade analyzer's
  bookkeeping are left out: their outputs are inputs. The crossover sign is a
  parameter of `Next`, the analysis is a map.
- Strategy.Decide (and so Strategy.SmaTargetStopStrategy.Next): closes, entry
  prices and the target and stop fractions are exact reals, while backtest.py:97-113
  compares IEEE doubles. A close that lies exactly on entry·(1±fraction) in decimal
  can fall one rounding step on the other side in floats. Example with the default
  parameters: short at entry 510.0, close 508.47. In doubles `510.0 * (1 - 0.003)` is
  508.46999999999997, so neither exit test holds and the program holds. The model
  computes 508.47 exactly and submits the target exit (a buy).
- TradeSummary.WinProbability: exact real division and multiplication by 100 stand
  for float division at backtest.py:190, so the rounding of the float result is not
  modelled.
- `\d` in the timestamp pattern is modelled as ASCII digits only. Python also
  accepts other Unicode decimal digits.
- Provider records are assumed to have exactly six fields. A record of another
  length, which makes the DataFrame constructor raise, is not modelled.
- Strategy.SmaTargetStopStrategy.NotifyOrder: the broker's position is a field moved
  by one unit on each Completed fill. The library's position accounting is not
  modelled: stake sizes, partial fills, and the broker applying the fill before the
  callback.
- Strategy.SmaTargetStopStrategy.NotifyOrder: the order is an order status and a
  side. The `isbuy()/issell()` branches both assign the executed price, so a side
  that is neither does not arise.
- pandas infers a column's type from its cells. The model treats Date as numeric
  when it holds a number, or has rows but no text. That is when `+ " "` raises
  TypeError (`LoadData.Joinable`). Time is added to a text column, and there pandas
  retries a failed add on the rows where both sides are present. So only a row with
  a date and a numeric time raises (`LoadData.JoinsOnto`). Other type inference is
  not modelled.
- LoadData.Load: requires that the file does not hold both `Open` and `open` (or
  the same for High, Low, Close or Volume). pandas would then produce duplicate
  labels, which the table model does not represent.
- Backfill.Run: a malformed batch does not become a missing chunk. The ValueError
  from the column assignment (historical_data_fetch.py:87) is not caught, so the
  whole run stops. This is modelled as `Outcome.Crashed`.
- Strategy.SmaTargetStopStrategy.NotifyOrder: an exit fill overwrites `entry_price`
  with the exit price instead of clearing it, and no invariant is checked at run time.
