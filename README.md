# MarketAnalysis stock screeners, modelled in Dafny

A sequential model of the computational kernels of the MarketAnalysis
stock-screening scripts, with proofs about them:

- the pop-only work queue `SyncedList` and its `Node` chain (both copies);
- the console and file sinks `Message`, `Listener` and `SyncedFile`
  (both copies of the messaging classes);
- the RSI computation of `technical_analysis/rsi.py` and its
  overbought/oversold scan;
- the oversold-run study of `technical_analysis/historical_data.py`: the
  `IndicatorResultTracker` counters, the `analyze` scan and the worker loop;
- the moving averages and the golden-cross search of both moving-average
  scripts;
- the top-x / bottom-x selection of `stock-appreciation-analysis.py`, and the
  capacity-100 selection of `day-to-day-analysis.py`.

One Dafny module per source file:

| Dafny file | source file |
|---|---|
| `node.dfy` | `tools/node.py` |
| `synced_list.dfy` | `tools/synced_list.py` |
| `legacy_synced_list.dfy` | `synced_list.py` |
| `messaging.dfy` | `tools/messaging.py` |
| `legacy_messaging.dfy` | `messaging.py` |
| `synced_output.dfy` | `tools/synced_output.py` |
| `rsi.dfy` | `technical_analysis/rsi.py` |
| `historical_data.dfy` | `technical_analysis/historical_data.py` |
| `moving_averages.dfy` | `technical_analysis/moving_averages.py` |
| `legacy_moving_averages.dfy` | `moving_averages.py` |
| `stock_appreciation.dfy` | `stock-appreciation-analysis.py` |
| `day_to_day.dfy` | `day-to-day-analysis.py` |

Shared modules:

- `wrappers.dfy`: `Option`, `Result` and the Python exceptions the code lets
  escape.
- `data_requests.dfy`: price bars, and label slicing of a frame on its date
  index.
- `text.dfy`: `str.isalpha` restricted to ASCII letters, the symbol-cell
  filter, and decimal `str(int)`.
- `dicts.dfy`: insertion-ordered Python dicts, with `pop`, assignment and the
  first-minimum / first-maximum key search.
- `drains.dfy`: the worker loop "pop a symbol, handle it, pop again", shared by
  the three threaded scripts.

Modelling choices:

- Every call is one atomic, sequential step: the queue and the sinks drop their
  locks, and a worker is modelled alone.
- A symbol's price history is an input. `get_data(symbol, start, end)` is the
  part of that history dated start..end.
- Dates are day numbers, and prices are `real`.
- A Python exception is an `Err` result. Examples: `AttributeError` when the
  queue's `_head` was never assigned, `IndexError` when a frame is too short,
  and `ZeroDivisionError` when a close is zero.
- A NaN cell is `None`, and every comparison with it is false.
- The console is the sequence of lines printed so far. A listener also records
  the blocks it was sent, so it can be proved that each message comes out
  whole and in call order.
- Each state-changing routine is a class or a method proved against a function
  on values. The queue, the tracker and the sinks are classes whose methods
  state their new state; the loops of `rsi`, `analyze`, `cross_above` and the
  top-x scripts are methods with loop invariants. The properties are lemmas
  about those functions.

Two points where the code does something other than its comments say:

- `rsi` divides the first average gain and loss by the literal 14, whatever
  `period` is. The model keeps the division by 14.
  `Rsi.InitialAverageIsMeanOnlyFor14` shows that the first average is the mean
  of the first window only when `period` is 14 (or the window sums to zero).
- The max variant of `day-to-day-analysis.py` compares the wrong way round: see
  "## Findings".

## Model

| member | source | states |
|---|---|---|
| `LinkedNodes.Node.constructor` | tools/node.py:7-9 | `val` is the argument; `next` is `init_next`, `None` when omitted |
| `LinkedNodes.Chain` | tools/synced_list.py:22-29 | the linking loop leaves a chain of nodes from the head, holding `init` in order and ending in `None` |
| `SyncedLists.SyncedList.constructor` | tools/synced_list.py:17-29 | the list holds `init` in order and has delivered nothing; `_head` is assigned exactly when `init` is non-empty |
| `SyncedLists.SyncedList.Pop` | tools/synced_list.py:31-43 | raises when `_head` was never assigned; `None` and nothing changed once exhausted; otherwise hands out the first value, unlinks its node and appends the value to what was delivered, keeping delivered + remaining == `init` |
| `SyncedLists.RenderedPrefixStep` | tools/synced_list.py:53-59 | one more node visited by `__str__` appends its value, with ", " unless it is the last node |
| `SyncedLists.SyncedList.ToString` | tools/synced_list.py:45-63 | `"["` + the remaining values joined by ", " + `"]"`, the list unchanged; raises when `_head` was never assigned |
| `LegacySyncedLists.TraceShape` | synced_list.py:42-45 | n successful pops have printed 2n lines, alternating "Entering lock" and "Exiting lock" |
| `LegacySyncedLists.SyncedList.constructor` | synced_list.py:20-29 | the list holds `init` in order, nothing printed, `_head` assigned exactly when `init` is non-empty |
| `LegacySyncedLists.SyncedList.Pop` | synced_list.py:37-46 | as in tools/synced_list.py, and a successful pop prints exactly "Entering lock" then "Exiting lock"; an exhausted or unassigned list prints nothing |
| `LegacySyncedLists.SyncedList.ToString` | synced_list.py:52-66 | `"["` + the remaining values joined by ", " + `"]"`, nothing changes |
| `Messaging.Message.constructor` | tools/messaging.py:19-23 | a new message has no lines |
| `Messaging.Message.AddLine` | tools/messaging.py:25-29 | appends the line at the end, earlier lines untouched |
| `Messaging.Message.GetLines` | tools/messaging.py:31-35 | returns a value equal to the current lines; the message does not change |
| `Messaging.Message.Reset` | tools/messaging.py:37-41 | the message is empty again |
| `Messaging.Listener.constructor` | tools/messaging.py:56-60 | nothing printed, no block sent |
| `Messaging.Listener.Send` | tools/messaging.py:62-73 | the console grows by exactly the message's lines, in order; the message is recorded as one block, and the console stays the concatenation of the blocks in call order |
| `Messaging.FlattenAppend` | tools/messaging.py:67-69 | sending one more block extends the console by exactly that block |
| `Messaging.FlattenConcat` | tools/messaging.py:67-69 | the console of successive sends is the concatenation of their blocks, however the run is split |
| `LegacyMessaging.Message.constructor` | messaging.py:6-7 | a new message has no lines |
| `LegacyMessaging.Message.AddLine` | messaging.py:9-10 | appends the line at the end |
| `LegacyMessaging.Message.GetLines` | messaging.py:12-13 | returns a copy equal to the lines |
| `LegacyMessaging.Listener.constructor` | messaging.py:17-18 | nothing printed, no block sent |
| `LegacyMessaging.Listener.Send` | messaging.py:28-31 | the console grows by exactly the message's lines, as one block in call order |
| `SyncedOutput.SyncedFile.constructor` | tools/synced_output.py:11-18 | opening with mode "w" leaves the file empty |
| `SyncedOutput.SyncedFile.Save` | tools/synced_output.py:20-33 | the file grows by each line of the message followed by a newline, in order |
| `SyncedOutput.RenderedAppend` | tools/synced_output.py:29-32 | two saves write the two texts one after the other |
| `SyncedOutput.LineLength` | tools/synced_output.py:32 | the length of the text before the first newline: it holds no newline, and one follows it unless the text ends |
| `SyncedOutput.SplitRendered` | tools/synced_output.py:29-32 | what `save` writes reads back line for line, when no line holds a newline of its own |
| `DataRequests.Closes` | technical_analysis/rsi.py:31 | the "Adj Close" column: one close per bar, in order |
| `DataRequests.Dates` | technical_analysis/moving_averages.py:60 | the date index: one date per bar, in order |
| `DataRequests.Between` | technical_analysis/moving_averages.py:39 | label slicing keeps no more rows than it is given |
| `DataRequests.BetweenMembers` | technical_analysis/moving_averages.py:39 | a row is in the slice exactly when it is in the frame and dated start..end |
| `DataRequests.BetweenNarrow` | technical_analysis/moving_averages.py:35-39 | fetching from an earlier day and then slicing from `start` is the same as fetching from `start` |
| `DataRequests.BetweenConcat` | technical_analysis/moving_averages.py:39 | slicing two frames one after the other is slicing each |
| `Text.NatToString` | technical_analysis/historical_data.py:125 | `str(j - i)` is a non-empty string of decimal digits |
| `Text.NatToStringValue` | technical_analysis/historical_data.py:125 | the digits of `str(n)` denote `n` |
| `Rsi.GainLoss` | technical_analysis/rsi.py:31-38 | both cells are non-negative, at least one is zero, and Gain - Loss is the change of the close |
| `Rsi.GainLossCell` | technical_analysis/rsi.py:32-38 | the branch on the sign of the change sets the cells `GainLoss` describes |
| `Rsi.Gains` | technical_analysis/rsi.py:30-41 | once the first row is chopped off, the Gain column has one entry fewer than the closes |
| `Rsi.Losses` | technical_analysis/rsi.py:30-41 | the Loss column has one entry fewer than the closes |
| `Rsi.GainsAndLosses` | technical_analysis/rsi.py:30-41 | both columns are non-negative, and entry k of Gain minus Loss is the change from close k to close k + 1 |
| `Rsi.FillGainLoss` | technical_analysis/rsi.py:27-41 | the fill loop leaves the Gain and Loss columns `Gains` and `Losses` describe |
| `Rsi.SumNonNegative` | technical_analysis/rsi.py:48-52 | a sum of non-negative cells is non-negative |
| `Rsi.SumFirst` | technical_analysis/rsi.py:48-52 | the `sum_gain` / `sum_loss` loop sums the first `period` cells |
| `Rsi.ExpAverage` | technical_analysis/rsi.py:72-76 | `_exp_average(prev, cur, period)` lies between `prev` and `cur` |
| `Rsi.SmoothedNonNegative` | technical_analysis/rsi.py:54-66 | every average of a non-negative column is non-negative |
| `Rsi.InitialAverageIsMeanOnlyFor14` | technical_analysis/rsi.py:54-55 | the first average is the first window's sum over 14, and it is that window's mean exactly when `period` is 14 or the sum is zero |
| `Rsi.SameQuotient` | technical_analysis/rsi.py:54-55 | dividing a non-zero total by 14 and by `p` agree only when `p` is 14 |
| `Rsi.FillAverage` | technical_analysis/rsi.py:54-66 | the Average column from row period - 1 on: the first window's sum over 14, then one smoothing step per row |
| `Rsi.RsiValue` | technical_analysis/rsi.py:59-60 | with a non-negative average gain and a positive average loss, the RSI lies in [0, 100) |
| `Rsi.FillRsi` | technical_analysis/rsi.py:59-67 | the RSI column from row period - 1 on is the RSI of the two averages, row by row |
| `Rsi.Table` | technical_analysis/rsi.py:41-67 | the filled frame has one row per day after the first |
| `Rsi.TableRsiInRange` | technical_analysis/rsi.py:44-67 | an RSI cell is NaN exactly in the first period - 1 rows, and lies in [0, 100) in every later row |
| `Rsi.FrameRowsAreBars` | technical_analysis/rsi.py:69 | every row of the sliced frame is dated start..end and carries the date and close of a fetched bar |
| `Rsi.BuildRows` | technical_analysis/rsi.py:27-67 | reading the filled columns back row by row gives the frame `Table` describes |
| `Rsi.ComputeRsi` | technical_analysis/rsi.py:14-69 | `None` without data, IndexError with fewer than period + 1 rows, otherwise the filled frame sliced to start..end |
| `Rsi.Classify` | technical_analysis/rsi.py:89-100 | overbought exactly when RSI >= 80; oversold exactly when RSI < 80 and RSI <= 20; a NaN cell is neither |
| `Rsi.SignalsShape` | technical_analysis/rsi.py:88-100 | at most one message per row, each three lines framed by banners, and none when no row is overbought or oversold |
| `Rsi.ReportSignals` | technical_analysis/rsi.py:88-100 | the inner loop sends one message per overbought or oversold row, in date order |
| `Rsi.ReportFrame` | technical_analysis/rsi.py:82-100 | the "Checking" message, then the signals of the frame; the exception `rsi` raised ends the worker |
| `Rsi.RsiWorks` | technical_analysis/rsi.py:80-101 | one entry of work per popped symbol |
| `Rsi.RsiWorksAt` | technical_analysis/rsi.py:80-101 | entry i of the work is what the i-th popped symbol produces |
| `Rsi.CheckSymbol` | technical_analysis/rsi.py:82-100 | the loop body for the k-th popped symbol sends that symbol's work and reports its exception |
| `Rsi.CheckOverboughtOversold` | technical_analysis/rsi.py:79-101 | raises at once when the list never had a head; otherwise handles the symbols in pop order, each sending its messages whole, and either drains the list or stops right after the first symbol whose `rsi` raised |
| `HistoricalData.Empty` | technical_analysis/historical_data.py:27-35 | the tally of a new tracker: `days` zeros in each list and no occurrence, consistent and bounded |
| `HistoricalData.IndicatorResultTracker.constructor` | technical_analysis/historical_data.py:27-35 | three lists of `days` zeros and no occurrence |
| `HistoricalData.Occurred` | technical_analysis/historical_data.py:37-42 | one more occurrence, no list changed |
| `HistoricalData.IndicatorResultTracker.RecordOccurrence` | technical_analysis/historical_data.py:37-42 | the occurrence count goes up by one and nothing else changes |
| `HistoricalData.Changed` | technical_analysis/historical_data.py:44-56 | recording a change keeps every list `days` long and the occurrences unchanged |
| `HistoricalData.ChangedSlots` | technical_analysis/historical_data.py:53-56 | slot day - 1 gains `change` and one count, and one increase exactly when `change` > 0; every other slot is unchanged; a consistent tally stays consistent |
| `HistoricalData.IndicatorResultTracker.RecordChange` | technical_analysis/historical_data.py:44-56 | the new counters are those `Changed` describes, and the tracker stays consistent |
| `HistoricalData.Summary` | technical_analysis/historical_data.py:58-79 | ZeroDivisionError exactly when there are no occurrences but some day, or some day has no change; otherwise one ratio per day in each column |
| `HistoricalData.Fraction` | technical_analysis/historical_data.py:68 | a count over a larger positive count is a percentage in [0, 100] |
| `HistoricalData.SummaryProbabilities` | technical_analysis/historical_data.py:66-68 | on a consistent, bounded tally, every printed probability of increase lies in [0, 100] |
| `HistoricalData.IndicatorResultTracker.Summarize` | technical_analysis/historical_data.py:58-79 | computes the values `Summary` describes, raising on the first zero divisor |
| `HistoricalData.ChangeCount` | technical_analysis/historical_data.py:121-122 | the inner loop records `days` changes, or stops at the last row |
| `HistoricalData.Recorded` | technical_analysis/historical_data.py:121-127 | after `count` steps one line per step has been logged, the lists keep their length and the occurrences are unchanged |
| `HistoricalData.RecordedCounts` | technical_analysis/historical_data.py:121-127 | the inner loop counts one change for each of the days 1..count and none for any other day |
| `HistoricalData.RecordedConsistent` | technical_analysis/historical_data.py:121-127 | the inner loop never counts more increases than changes |
| `HistoricalData.RecordDay` | technical_analysis/historical_data.py:123-127 | one step of the inner loop logs and records the change of row j relative to row i, as day j - i |
| `HistoricalData.RecordChanges` | technical_analysis/historical_data.py:121-127 | the inner `while j` loop logs and records the changes `Recorded` describes |
| `HistoricalData.RecordEvent` | technical_analysis/historical_data.py:111-130 | the first row after a run sends the queued lines, records one occurrence, sends an empty message, records the following days' changes and sends their lines; the message is left empty |
| `HistoricalData.Step` | technical_analysis/historical_data.py:102-130 | one row of the scan keeps every list `days` long |
| `HistoricalData.ScanTo` | technical_analysis/historical_data.py:102-130 | the scan after i rows keeps every list `days` long |
| `HistoricalData.ScanFlag` | technical_analysis/historical_data.py:104-115 | after i rows, `last_was_oversold` holds exactly when row i - 1 was oversold |
| `HistoricalData.ScanOccurrences` | technical_analysis/historical_data.py:100-117 | one occurrence per oversold run followed by a row above 20; a run reaching the last row is never counted |
| `HistoricalData.StepKeepsBounds` | technical_analysis/historical_data.py:102-130 | one row keeps the tally consistent and never gives a day more changes than occurrences |
| `HistoricalData.ScanKeepsBounds` | technical_analysis/historical_data.py:102-130 | the whole scan keeps the tally consistent and bounded |
| `HistoricalData.ScanRow` | technical_analysis/historical_data.py:103-130 | the loop body moves the flag, the message, the tracker and the listener one step of the scan |
| `HistoricalData.ScanRows` | technical_analysis/historical_data.py:100-130 | the `for i` loop leaves the tracker and the listener as the scan of every row does |
| `HistoricalData.Analysis` | technical_analysis/historical_data.py:82-130 | `analyze` keeps every list `days` long |
| `HistoricalData.Analyze` | technical_analysis/historical_data.py:82-130 | nothing without data, the exception when `rsi` raises, otherwise the messages and the tally of the scan of the 2010-2019 RSI frame |
| `HistoricalData.AnalysisKeepsBounds` | technical_analysis/historical_data.py:82-130 | `analyze` keeps a consistent, bounded tally consistent and bounded |
| `HistoricalData.SymbolRun` | technical_analysis/historical_data.py:136-139 | one popped symbol keeps every list `days` long |
| `HistoricalData.AnalyzeSymbol` | technical_analysis/historical_data.py:136-139 | the "analyzing" line, then what `analyze` sends and records |
| `HistoricalData.ThreadRun` | technical_analysis/historical_data.py:133-140 | one entry of work per handled symbol, each starting from the tally the previous ones left |
| `HistoricalData.ThreadRunAt` | technical_analysis/historical_data.py:133-140 | a later symbol does not change what an earlier one did |
| `HistoricalData.ThreadRunKeepsBounds` | technical_analysis/historical_data.py:133-140 | a worker keeps a consistent, bounded tally consistent and bounded, however many symbols it handles |
| `HistoricalData.AnalyzeNext` | technical_analysis/historical_data.py:136-139 | the k-th popped symbol sends its work and leaves the tally of the first k + 1 symbols |
| `HistoricalData.AnalyzeTurn` | technical_analysis/historical_data.py:136-140 | one turn of the worker loop: handle the symbol, then pop the next one, or stop with the symbol's exception |
| `HistoricalData.AnalyzeThread` | technical_analysis/historical_data.py:133-140 | raises at once when the list never had a head; otherwise `analyze` runs once per popped symbol, in pop order, until `None` or the first exception; the tracker holds the tally of the symbols handled |
| `MovingAverages.Buffer` | technical_analysis/moving_averages.py:35 | `n + ceil(3n / 7)`: at least `n`, and exactly the smallest number of extra days that covers 3n/7 |
| `MovingAverages.Days` | technical_analysis/moving_averages.py:60 | the index of an averaged frame, in order |
| `MovingAverages.Rolling` | technical_analysis/moving_averages.py:37 | `rolling(window=n).mean()` has one row per fetched row, on the same date |
| `MovingAverages.SumBetween` | technical_analysis/moving_averages.py:37 | a sum of values within [lo, hi] lies within |s| lo and |s| hi |
| `MovingAverages.MeanBetween` | technical_analysis/moving_averages.py:37 | the mean of values within [lo, hi] lies within [lo, hi] |
| `MovingAverages.RollingWithin` | technical_analysis/moving_averages.py:37 | the k-th average is defined exactly from row n - 1 on, and then lies within any bounds of the last n closes |
| `MovingAverages.MovingAverage` | technical_analysis/moving_averages.py:22-41 | `None` exactly when the fetch has no "Adj Close"; otherwise every row is dated start..end |
| `MovingAverages.BetweenSameDates` | technical_analysis/moving_averages.py:37-39 | two frames with the same dates row by row keep the same dates when sliced |
| `MovingAverages.MovingAverageDates` | technical_analysis/moving_averages.py:35-39 | whatever `n`, the averaged frame is indexed by the trading days of start..end, so the short and the long average have the same rows |
| `MovingAverages.FirstCross` | technical_analysis/moving_averages.py:62-64 | the first row from `from` on where the short average is at or below the long one and then strictly above it; `None` exactly when no such row exists |
| `MovingAverages.CrossOf` | technical_analysis/moving_averages.py:62-71 | a returned date is the date of a row after the first |
| `MovingAverages.CrossOfIsFirst` | technical_analysis/moving_averages.py:62-71 | the date is that of row i + 1 for the smallest crossing i; `None` exactly when no adjacent pair crosses; equality and NaN do not cross |
| `MovingAverages.CrossDate` | technical_analysis/moving_averages.py:55-71 | no date without data, and a returned date lies within start..end |
| `MovingAverages.FindCross` | technical_analysis/moving_averages.py:62-71 | the `for i` loop with early return finds the first crossing row |
| `MovingAverages.ReportCross` | technical_analysis/moving_averages.py:62-71 | returns the first cross date and sends its four-line report, or sends nothing when there is none |
| `MovingAverages.CrossAbove` | technical_analysis/moving_averages.py:44-77 | the "Checking" message, then the cross report or the "Couldn't get data" message; returns the date `CrossDate` describes |
| `MovingAverages.CrossWorks` | technical_analysis/moving_averages.py:80-90 | one entry of work per popped symbol |
| `MovingAverages.CrossWorksNeverRaise` | technical_analysis/moving_averages.py:87-90 | no symbol's `cross_above` raises, so a worker drains the whole queue |
| `MovingAverages.CheckSymbol` | technical_analysis/moving_averages.py:89 | the loop body for the k-th popped symbol sends that symbol's work |
| `MovingAverages.CheckForCross` | technical_analysis/moving_averages.py:80-90 | raises at once when the list never had a head; otherwise runs `cross_above` once per symbol in pop order and empties the list |
| `LegacyMovingAverages.LegacyMovingAverage` | moving_averages.py:15-21 | the averages cover every fetched day, none cut off |
| `LegacyMovingAverages.TailStart` | moving_averages.py:39 | `tail(5)` keeps the last five rows, or all of them when there are fewer |
| `LegacyMovingAverages.Averages` | moving_averages.py:34-37 | both averages are fetched from `today - (7 + 2 long)`, so they have the same length |
| `LegacyMovingAverages.CrossesInTail` | moving_averages.py:39-43 | a cross in the tail is a cross of the whole frame, shifted by where the tail starts |
| `LegacyMovingAverages.FirstCrossInTail` | moving_averages.py:41-48 | the first cross of the tail is the first cross of the frame at or after the tail start, shifted |
| `LegacyMovingAverages.TailCross` | moving_averages.py:39-48 | the first cross among the last five rows is a cross starting at or after the tail start with no earlier one there, and its date is one of the last four; `None` exactly when there is none |
| `LegacyMovingAverages.LegacyCrossInLastDays` | moving_averages.py:29-48 | `cross_above` returns the day after the first cross among the last five rows, one of the last four dates, or `None` when no pair there crosses |
| `LegacyMovingAverages.LegacyCrossAbove` | moving_averages.py:29-48 | prints "Checking", then the cross report for the date `LegacyCrossDate` describes; KeyError without "Adj Close" |
| `Dicts.Keys` | stock-appreciation-analysis.py:89-90 | `list(d.keys())`: one key per item, in insertion order |
| `Dicts.IndexOf` | stock-appreciation-analysis.py:98 | the first position holding a present key |
| `Dicts.Set` | stock-appreciation-analysis.py:86-87 | `d[key] = value`: a present key keeps the size and a new one goes last; the new item is present, no item with another key is lost, none is invented, and distinct keys stay distinct |
| `Dicts.Pop` | stock-appreciation-analysis.py:98 | `d.pop(key)` takes out the item of `key`, the others keep their order |
| `Dicts.PopSubset` | stock-appreciation-analysis.py:98 | popping adds no item |
| `Dicts.PopKeeps` | stock-appreciation-analysis.py:98 | popping keeps every item with another key |
| `Dicts.PopKeys` | stock-appreciation-analysis.py:98 | popping adds no key |
| `Dicts.PopDistinct` | stock-appreciation-analysis.py:98 | popping keeps keys distinct and removes the popped key |
| `Dicts.FirstMin` | stock-appreciation-analysis.py:90-93 | the key `min` ends at holds the smallest value, and every earlier item is strictly larger |
| `Dicts.FirstMax` | stock-appreciation-analysis.py:89-96 | the key `max` ends at holds the largest value, and every earlier item is strictly smaller |
| `Dicts.FindFirstMin` | stock-appreciation-analysis.py:90-93 | the search loop over the keys ends at the first smallest item |
| `Dicts.FindFirstMax` | stock-appreciation-analysis.py:89-96 | the search loop over the keys ends at the first largest item |
| `Dicts.KeepLarger` | stock-appreciation-analysis.py:90-99 | a full "largest" dict keeps its size (or shrinks when the key was present) and its distinct keys |
| `Dicts.KeepSmaller` | stock-appreciation-analysis.py:89-102 | a full "smallest" dict keeps its size (or shrinks when the key was present) and its distinct keys |
| `Dicts.ReplaceSmallest` | stock-appreciation-analysis.py:90-99 | the search for the first smallest key, then its replacement when the value is strictly larger |
| `Dicts.ReplaceLargest` | stock-appreciation-analysis.py:89-102 | the search for the first largest key, then its replacement when the value is strictly smaller |
| `Dicts.EmptyTop` | stock-appreciation-analysis.py:59-60 | two empty dicts hold the top and bottom of an empty pool |
| `Dicts.FreshKey` | stock-appreciation-analysis.py:85-102 | a symbol new to the pool is new to every dict drawn from it |
| `Dicts.InsertTop` | stock-appreciation-analysis.py:85-87 | below capacity, adding a new symbol keeps the dict the top of the pool |
| `Dicts.InsertBottom` | stock-appreciation-analysis.py:85-87 | below capacity, adding a new symbol keeps the dict the bottom of the pool |
| `Dicts.KeepLargerTop` | stock-appreciation-analysis.py:90-99 | at capacity, replacing the first smallest item when the new value is larger keeps the largest items of the pool |
| `Dicts.KeepSmallerBottom` | stock-appreciation-analysis.py:89-102 | at capacity, replacing the first largest item when the new value is smaller keeps the smallest items of the pool |
| `StockAppreciation.Increase` | stock-appreciation-analysis.py:64-83 | a used cell is an alphabetic string with at least two closes and a non-zero first one; ZeroDivisionError exactly when such a cell's first close is zero |
| `StockAppreciation.ErrorStays` | stock-appreciation-analysis.py:62-104 | once a prefix of the column raised, the whole column raises the same |
| `StockAppreciation.DistinctLast` | stock-appreciation-analysis.py:62-104 | a column of distinct symbols has distinct prefixes, and its last symbol is new to them |
| `StockAppreciation.UpdateKeepsExtremes` | stock-appreciation-analysis.py:85-102 | one new symbol keeps `result_pos` the largest and `result_neg` the smallest increases of the pool, of equal size |
| `StockAppreciation.MaxAndMinKeepExtremes` | stock-appreciation-analysis.py:62-104 | with distinct symbols and x >= 1, `result_pos` holds the x largest and `result_neg` the x smallest increases (all of them while fewer), never more than x |
| `StockAppreciation.NoRoomAcceptsNothing` | stock-appreciation-analysis.py:85-102 | with x <= 0, a column that returns used no symbol at all: the first used one raises IndexError |
| `StockAppreciation.MaxAndMinSnoc` | stock-appreciation-analysis.py:62-103 | one more cell runs the loop body once more on the dicts so far, unless an earlier cell raised |
| `StockAppreciation.RepeatIncreases` | stock-appreciation-analysis.py:81-83 | the increases of the sample symbols A, B and C |
| `StockAppreciation.RepeatFirstSteps` | stock-appreciation-analysis.py:85-87 | the first A and B go into both dicts |
| `StockAppreciation.RepeatSecondA` | stock-appreciation-analysis.py:89-102 | a repeated A leaves `result_pos` alone and pushes B out of `result_neg` |
| `StockAppreciation.RepeatLastStep` | stock-appreciation-analysis.py:85-87 | `result_neg` has room again, so C goes into both dicts |
| `StockAppreciation.RepeatFirstTwo` | stock-appreciation-analysis.py:62-103 | the dicts after the first A and B |
| `StockAppreciation.RepeatFirstThree` | stock-appreciation-analysis.py:62-103 | the dicts after the repeated A |
| `StockAppreciation.RepeatedSymbolOverfills` | stock-appreciation-analysis.py:85-102 | a column that repeats a symbol leaves `result_pos` with x + 1 items for x = 2 |
| `StockAppreciation.Visit` | stock-appreciation-analysis.py:63-102 | the loop body skips, raises, or updates the two dicts as the fold step says |
| `StockAppreciation.Place` | stock-appreciation-analysis.py:85-102 | both dicts take the symbol while `result_neg` has fewer than x items; IndexError on an empty full dict; otherwise the two replace-the-extreme rules |
| `StockAppreciation.ScanColumn` | stock-appreciation-analysis.py:59-104 | the loop over the column computes the fold of the loop body, ended by the first exception |
| `StockAppreciation.GetMaxAndMinIncrease` | stock-appreciation-analysis.py:52-104 | for distinct symbols and x >= 1, the x largest and the x smallest increases; for x <= 0, either nothing was used or IndexError |
| `DayToDay.Increase` | day-to-day-analysis.py:40-56 | a used cell is an alphabetic string with exactly two closes and a non-zero first one, and `inc * yes == td - yes`; ZeroDivisionError exactly when such a cell's first close is zero |
| `DayToDay.DropSmallestAsWritten` | day-to-day-analysis.py:60-66 | the comparison as written never grows the dict |
| `DayToDay.Place` | day-to-day-analysis.py:57-66 | whatever the rule, a dict of at most 100 items stays at most 100 items |
| `DayToDay.ScanBound` | day-to-day-analysis.py:57-66 | whatever the rule and the symbols, `result` never holds more than 100 items |
| `DayToDay.ScanFails` | day-to-day-analysis.py:47-56 | the function raises exactly when some used cell has a zero first close, and then with ZeroDivisionError |
| `DayToDay.ErrorStays` | day-to-day-analysis.py:39-67 | once a prefix of the column raised, the whole column raises the same |
| `DayToDay.DistinctLast` | day-to-day-analysis.py:39-67 | a column of distinct symbols has distinct prefixes, and its last symbol is new to them |
| `DayToDay.AcceptedLast` | day-to-day-analysis.py:39-67 | the pool of used items grows by the item of the last cell, if it is used |
| `DayToDay.TopHundred` | day-to-day-analysis.py:57-66 | with the comparison corrected, the max variant keeps the 100 largest changes of distinct symbols |
| `DayToDay.BottomHundred` | day-to-day-analysis.py:99-108 | the min variant keeps the 100 smallest changes of distinct symbols |
| `DayToDay.AsWrittenDropsLarger` | day-to-day-analysis.py:64 | as written, with 100 changes kept, a new change larger than all of them is dropped, so the dict no longer holds the 100 largest |
| `DayToDay.Visit` | day-to-day-analysis.py:40-66 | the loop body skips, raises, or updates `result` as the fold step says |
| `DayToDay.Put` | day-to-day-analysis.py:57-66 | insertion below 100 items, else the replacement the rule picks |
| `DayToDay.ReplaceSmallestAsWritten` | day-to-day-analysis.py:60-66 | the search for the first smallest key, then its replacement when that item is larger than `inc`, as written |
| `DayToDay.ScanColumn` | day-to-day-analysis.py:39-67 | the loop over the column computes the fold of the loop body, ended by the first exception |
| `DayToDay.GetMaxIncreaseFromYesterdayAsWritten` | day-to-day-analysis.py:28-68 | the max variant as written: at most 100 items, ZeroDivisionError exactly when a used symbol's first close is zero; it runs the comparison that `DayToDay.AsWrittenDropsLarger` shows can drop the largest change |
| `DayToDay.GetMaxIncreaseFromYesterday` | day-to-day-analysis.py:28-68 | corrected max variant: at most 100 items, the 100 largest for distinct symbols, ZeroDivisionError exactly when a used symbol's first close is zero |
| `DayToDay.GetMinIncreaseFromYesterday` | day-to-day-analysis.py:70-110 | at most 100 items, the 100 smallest for distinct symbols, ZeroDivisionError exactly when a used symbol's first close is zero |
| `Drains.FirstError` | technical_analysis/rsi.py:80-101 | the position of the first symbol whose handling raised: every earlier one went through |
| `Drains.SentBlocksStep` | technical_analysis/rsi.py:80-101 | the first k + 1 symbols sent the blocks of the first k, then those of symbol k |
| `Drains.SentBlocksExtend` | technical_analysis/rsi.py:80-101 | after symbol k the listener holds the blocks of the first k + 1 symbols |
| `Drains.ProgressStep` | technical_analysis/rsi.py:81-101 | a symbol that did not raise extends what was sent by its own blocks |
| `Drains.DrainedAll` | technical_analysis/rsi.py:81-101 | a worker that handled every symbol without an exception has sent them all and emptied the list |
| `Drains.DrainedAt` | technical_analysis/rsi.py:81-101 | a worker whose k-th symbol raised stops with that exception, having sent the blocks of the first k + 1 symbols |
| `Drains.PopAt` | technical_analysis/rsi.py:80-101 | the worker's pop hands out the next symbol of the queue, or `None` once all are handled |
| `Drains.SendBlock` | technical_analysis/rsi.py:82-84 | building a message of some lines and sending it adds exactly that block |

## Left out

- Text.IsAlpha: ASCII letters only. Python's `str.isalpha` also accepts
  non-ASCII letters (such as "É"), so a symbol cell made of such letters is
  skipped by the model but looked up by stock-appreciation-analysis.py:65 and
  day-to-day-analysis.py:42. The `Increase` functions and every lemma over
  `Accepted` inherit this restriction. Ticker symbols are ASCII.
- Threads and locks: every call is one atomic step, and each worker is
  modelled alone. The thread spawning and joining of `analyze_symbols` (both
  technical-analysis files) are not modelled.
- Fetching data: `data_requests.py`, `get_data`, `web.DataReader` and the local
  CSV files. A symbol's history is an input; a fetch that raises (caught and
  skipped by the top-x scripts) is `None`.
- `tools/pull_data.py` and `test.py` are not part of this model: they only
  fetch data or call a remote API.
- Command-line parsing, `extract_symbols`, the `__main__` blocks, file opening,
  JSON dumps and matplotlib styling. The symbol column is an input. The
  undefined `now` at day-to-day-analysis.py:116 and the global `f` at
  stock-appreciation-analysis.py:57 belong to that glue.
- The text of `print` calls that only log: the dicts printed after every cell
  and the "skipped stock" messages of the top-x scripts, and the lines of
  `summarize`. `Summarize` returns the printed numbers instead.
- The formatting of dates, thread names and floats (`str(date)`,
  `threading.currentThread()`, `format(change, '.5f')`): these are parameters
  of the model.
- Floating point: prices are `real`, with no rounding. NaN is modelled only as
  a missing cell that compares false. A zero close in `analyze` (a NumPy
  division giving inf) is excluded by a precondition, `NonZeroBars`.
- Rsi.ComputeRsi: a zero average loss (NumPy division by zero) is excluded by
  the precondition `LossesPositive`, so an RSI of NaN or 100 is not modelled.
- `analyze` calls `rsi` with period 14 on 2010-01-01..2019-12-31, local data
  only. The dates are day numbers 14610 and 18261.
- HistoricalData.IndicatorResultTracker.RecordChange: requires
  `1 <= day <= days`. Python's negative-index wrap-around for `day <= 0` is not
  modelled, because `analyze` only passes days 1..days.
- SyncedLists.SyncedList.constructor: states the chain and its contents, not
  that its nodes are fresh.
- LegacySyncedLists.SyncedList.constructor: states the chain and its contents,
  not that its nodes are fresh.
- StockAppreciation.MaxAndMinKeepExtremes: the top-x / bottom-x property and the
  bound of x items are proved only for columns whose used symbols are
  distinct. `StockAppreciation.RepeatedSymbolOverfills` shows that a repeated
  symbol can leave `result_pos` with more than x items.
- StockAppreciation.GetMaxAndMinIncrease: the same distinct-symbols condition.
- DayToDay.TopHundred: the same distinct-symbols condition for the top 100.
  The bound of 100 items (`DayToDay.ScanBound`) holds for every column.
- DayToDay.BottomHundred: the same distinct-symbols condition.
- The model does not check that a `Message` passed to `send` or `save` is left
  unchanged. This follows from the frames: those methods modify only the
  listener or the file.

## Findings

| source | as written | input that shows it | evidently intended | confidence | as-written member | corrected member |
|---|---|---|---|---|---|---|
| day-to-day-analysis.py:64 | at capacity, the max variant replaces the smallest kept change only when that change is larger than the new one (`result[min] > inc`) | 100 kept changes, then a new symbol whose change is larger than every kept one: it is dropped, and the dict no longer holds the 100 largest | replace the smallest kept change when the new one is larger (`result[min] < inc`): the function is documented as returning the stocks that increased the most | not executed | `DayToDay.AsWrittenDropsLarger` | `DayToDay.TopHundred` |

`DayToDay.DropSmallestAsWritten`, `DayToDay.ReplaceSmallestAsWritten` and rule
`LargestAsWritten` of `DayToDay.ScanColumn` model the comparison as written.
`DayToDay.GetMaxIncreaseFromYesterdayAsWritten` is the max variant as written.
`DayToDay.GetMaxIncreaseFromYesterday` uses the corrected rule `Largest`.
