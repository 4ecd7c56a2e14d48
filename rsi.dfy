/**
 * technical_analysis/rsi.py: the Relative Strength Index of a price series and
 * the overbought/oversold scan over it. Pandas columns filled cell by cell
 * become arrays; a NaN cell is `None`.
 */
module Rsi {
  import opened Wrappers
  import opened DataRequests
  import opened Messaging
  import opened SyncedLists
  import opened Drains

  /** One row of the frame `rsi` returns (the date is its index). */
  datatype Row = Row(date: int, close: real, gain: real, loss: real,
                     averageGain: Option<real>, averageLoss: Option<real>, rsi: Option<real>)

  /** The Gain and Loss cells for a day whose close moved by `diff`. */
  function GainLoss(diff: real): (r: (real, real))
    ensures r.0 >= 0.0 && r.1 >= 0.0
    ensures r.0 - r.1 == diff
    ensures r.0 == 0.0 || r.1 == 0.0
  {
    if diff >= 0.0 then (diff, 0.0) else (0.0, -diff)
  }

  /** The Gain column once the first row is chopped off: entry k is day k + 1's gain. */
  function Gains(closes: seq<real>): (g: seq<real>)
    requires |closes| >= 1
    ensures |g| == |closes| - 1
  {
    seq(|closes| - 1, k requires 0 <= k < |closes| - 1 => GainLoss(closes[k + 1] - closes[k]).0)
  }

  /** The Loss column once the first row is chopped off (losses are positive numbers). */
  function Losses(closes: seq<real>): (l: seq<real>)
    requires |closes| >= 1
    ensures |l| == |closes| - 1
  {
    seq(|closes| - 1, k requires 0 <= k < |closes| - 1 => GainLoss(closes[k + 1] - closes[k]).1)
  }

  /** Both columns are non-negative, and Gain minus Loss is the day-over-day change of the close. */
  lemma GainsAndLosses(closes: seq<real>)
    requires |closes| >= 1
    ensures forall k :: 0 <= k < |closes| - 1 ==> Gains(closes)[k] >= 0.0 && Losses(closes)[k] >= 0.0
    ensures forall k :: 0 <= k < |closes| - 1 ==> Gains(closes)[k] - Losses(closes)[k] == closes[k + 1] - closes[k]
  {
  }

  function Sum(s: seq<real>): real {
    if s == [] then 0.0 else Sum(s[..|s| - 1]) + s[|s| - 1]
  }

  lemma {:induction false} SumNonNegative(s: seq<real>)
    requires forall i :: 0 <= i < |s| ==> s[i] >= 0.0
    ensures Sum(s) >= 0.0
  {
    if s != [] {
      SumNonNegative(s[..|s| - 1]);
    }
  }

  /** `_exp_average(previous, current, period)`: Wilder's smoothing step. */
  function ExpAverage(previous: real, current: real, period: int): (r: real)
    requires period >= 1
    ensures previous <= current ==> previous <= r <= current
    ensures current <= previous ==> current <= r <= previous
  {
    var p := period as real;
    assert (p - 1.0) * previous + current - p * previous == current - previous;
    assert (p - 1.0) * previous + current - p * current == (p - 1.0) * (previous - current);
    ((p - 1.0) * previous + current) / p
  }

  /**
   * The Average Gain (or Loss) cell of row k for the column `values`: at row
   * period - 1 the sum of the first `period` cells divided by the literal 14,
   * then one smoothing step per row.
   */
  function Smoothed(values: seq<real>, period: nat, k: nat): real
    requires 1 <= period <= k + 1 <= |values|
    decreases k
  {
    if k == period - 1 then Sum(values[..period]) / 14.0
    else ExpAverage(Smoothed(values, period, k - 1), values[k], period)
  }

  /** Averages of non-negative cells are non-negative. */
  lemma {:induction false} SmoothedNonNegative(values: seq<real>, period: nat, k: nat)
    requires 1 <= period <= k + 1 <= |values|
    requires forall i :: 0 <= i < |values| ==> values[i] >= 0.0
    ensures Smoothed(values, period, k) >= 0.0
  {
    if k == period - 1 {
      SumNonNegative(values[..period]);
    } else {
      SmoothedNonNegative(values, period, k - 1);
    }
  }

  /**
   * The first average divides by 14 whatever `period` is: it is the mean of
   * the first `period` cells exactly when `period` is 14 (or the sum is zero).
   */
  lemma InitialAverageIsMeanOnlyFor14(values: seq<real>, period: nat)
    requires 1 <= period <= |values|
    ensures Smoothed(values, period, period - 1) * 14.0 == Sum(values[..period])
    ensures Smoothed(values, period, period - 1) == Sum(values[..period]) / (period as real)
        <==> period == 14 || Sum(values[..period]) == 0.0
  {
    SameQuotient(Sum(values[..period]), period as real);
  }

  /** Dividing a non-zero total by 14 and by `p` agree only when `p` is 14. */
  lemma SameQuotient(s: real, p: real)
    requires p > 0.0
    ensures (s / 14.0) * 14.0 == s
    ensures s / 14.0 == s / p <==> p == 14.0 || s == 0.0
  {
    var a := s / 14.0;
    var b := s / p;
    assert a * 14.0 == s;
    assert b * p == s;
    if a == b && s != 0.0 {
      assert a * p == s;
      assert a * p - a * 14.0 == 0.0;
      assert a * (p - 14.0) == 0.0;
      assert a != 0.0;
    }
  }

  /** `100 - 100 / (1 + averageGain / averageLoss)`; rsi.py does not guard a zero average loss. */
  function RsiValue(averageGain: real, averageLoss: real): (r: real)
    requires averageGain >= 0.0 && averageLoss > 0.0
    ensures 0.0 <= r < 100.0
  {
    var rs := averageGain / averageLoss;
    assert rs >= 0.0;
    var q := 100.0 / (1.0 + rs);
    assert 0.0 < q <= 100.0 by {
      assert q * (1.0 + rs) == 100.0;
    }
    100.0 - q
  }

  /** Every average loss from row period - 1 on is positive, so no RSI cell divides by zero. */
  ghost predicate LossesPositive(closes: seq<real>, period: nat)
    requires 1 <= period && |closes| >= period + 1
  {
    forall k :: period - 1 <= k < |closes| - 1 ==> Smoothed(Losses(closes), period, k) > 0.0
  }

  /** Row k of the frame, once the Gain/Loss/Average/RSI columns are filled in. */
  function TableRow(bars: seq<Bar>, period: nat, k: nat): Row
    requires 1 <= period && |bars| >= period + 1 && LossesPositive(Closes(bars), period)
    requires k < |bars| - 1
  {
    var closes := Closes(bars);
    var g := Gains(closes);
    var l := Losses(closes);
    if k < period - 1 then
      Row(bars[k + 1].date, bars[k + 1].close, g[k], l[k], None, None, None)
    else
      GainsAndLosses(closes);
      SmoothedNonNegative(g, period, k);
      var ag := Smoothed(g, period, k);
      var al := Smoothed(l, period, k);
      Row(bars[k + 1].date, bars[k + 1].close, g[k], l[k], Some(ag), Some(al), Some(RsiValue(ag, al)))
  }

  /** The whole frame after the first row is chopped off: one row per day after the first. */
  function Table(bars: seq<Bar>, period: nat): (t: seq<Row>)
    requires 1 <= period && |bars| >= period + 1 && LossesPositive(Closes(bars), period)
    ensures |t| == |bars| - 1
  {
    seq(|bars| - 1, k requires 0 <= k < |bars| - 1 => TableRow(bars, period, k))
  }

  /** The row's date, for label slicing. */
  function RowDate(row: Row): int {
    row.date
  }

  /** The zero-average-loss precondition of `rsi` for the fetched frame `data`. */
  ghost predicate RsiDefined(data: Option<seq<Bar>>, period: nat)
    requires period >= 1
  {
    data.Some? && |data.value| >= period + 1 ==> LossesPositive(Closes(data.value), period)
  }

  /** What `rsi(symbol, start, end, period)` returns for the fetched frame `data`. */
  function RsiFrame(data: Option<seq<Bar>>, start: int, end: int, period: nat): Result<Option<seq<Row>>>
    requires period >= 1
    requires RsiDefined(data, period)
  {
    if data.None? then Ok(None)
    else if |data.value| < period + 1 then Err(IndexError)
    else Ok(Some(Between(Table(data.value, period), RowDate, start, end)))
  }

  /** Every RSI cell of the frame is NaN (the first period - 1 rows) or lies in [0, 100). */
  lemma TableRsiInRange(bars: seq<Bar>, period: nat, k: nat)
    requires 1 <= period && |bars| >= period + 1 && LossesPositive(Closes(bars), period)
    requires k < |bars| - 1
    ensures Table(bars, period)[k].rsi.None? <==> k < period - 1
    ensures Table(bars, period)[k].rsi.Some? ==> 0.0 <= Table(bars, period)[k].rsi.value < 100.0
  {
    if k >= period - 1 {
      SmoothedNonNegative(Gains(Closes(bars)), period, k);
    }
  }

  /** Every row of the sliced frame is a fetched day: its date and close are those of one of the bars. */
  lemma FrameRowsAreBars(bars: seq<Bar>, period: nat, start: int, end: int)
    requires 1 <= period && |bars| >= period + 1 && LossesPositive(Closes(bars), period)
    ensures forall x :: x in Between(Table(bars, period), RowDate, start, end) ==>
      start <= x.date <= end && Bar(x.date, x.close) in bars
  {
    var t := Table(bars, period);
    BetweenMembers(t, RowDate, start, end);
    forall x | x in Between(t, RowDate, start, end)
      ensures start <= x.date <= end && Bar(x.date, x.close) in bars
    {
      var k :| 0 <= k < |t| && t[k] == x;
      assert bars[k + 1] == Bar(x.date, x.close);
    }
  }

  /** One day's Gain and Loss cells, set in the branch the change's sign picks. */
  method GainLossCell(diff: real) returns (gain: real, loss: real)
    ensures (gain, loss) == GainLoss(diff)
  {
    if diff >= 0.0 {
      gain, loss := diff, 0.0;
    } else {
      gain, loss := 0.0, -diff;
    }
  }

  /** The Gain/Loss loop: fills both columns for every day after the first. */
  method FillGainLoss(bars: seq<Bar>) returns (gain: array<real>, loss: array<real>)
    requires |bars| >= 1
    ensures fresh(gain) && fresh(loss)
    ensures gain[..] == Gains(Closes(bars)) && loss[..] == Losses(Closes(bars))
  {
    ghost var closes := Closes(bars);
    gain := new real[|bars| - 1];
    loss := new real[|bars| - 1];
    for i := 1 to |bars|
      invariant gain[..i - 1] == Gains(closes)[..i - 1]
      invariant loss[..i - 1] == Losses(closes)[..i - 1]
    {
      var g, l := GainLossCell(bars[i].close - bars[i - 1].close);
      assert (g, l) == (Gains(closes)[i - 1], Losses(closes)[i - 1]);
      gain[i - 1], loss[i - 1] := g, l;
      assert gain[..i] == gain[..i - 1] + [g];
    }
    assert gain[..] == gain[..|bars| - 1];
    assert loss[..] == loss[..|bars| - 1];
    assert gain[..] == Gains(closes) && loss[..] == Losses(closes);
  }

  /** The `sum_gain` / `sum_loss` loop over the first `period` cells. */
  method SumFirst(column: array<real>, period: nat) returns (total: real)
    requires period <= column.Length
    ensures total == Sum(column[..period])
  {
    total := 0.0;
    for i := 0 to period
      invariant total == Sum(column[..i])
    {
      assert column[..i + 1][..i] == column[..i];
      total := total + column[i];
    }
  }

  /** One Average column from row period - 1 on: the first window's total over 14, then one smoothing step per row. */
  method FillAverage(column: array<real>, period: nat, total: real) returns (average: array<real>)
    requires 1 <= period <= column.Length
    requires total == Sum(column[..period])
    ensures fresh(average) && average.Length == column.Length
    ensures forall k :: period - 1 <= k < column.Length ==> average[k] == Smoothed(column[..], period, k)
  {
    ghost var c := column[..];
    average := new real[column.Length];
    assert c[..period] == column[..period];
    average[period - 1] := total / 14.0;
    for i := period to column.Length
      invariant forall k :: period - 1 <= k < i ==> average[k] == Smoothed(c, period, k)
    {
      average[i] := ExpAverage(average[i - 1], column[i], period);
    }
  }

  /** The RSI column from row period - 1 on, from the two Average columns. */
  method FillRsi(averageGain: array<real>, averageLoss: array<real>, period: nat) returns (rsiCell: array<real>)
    requires averageGain.Length == averageLoss.Length && 1 <= period <= averageGain.Length
    requires forall k :: period - 1 <= k < averageGain.Length ==> averageGain[k] >= 0.0 && averageLoss[k] > 0.0
    ensures fresh(rsiCell) && rsiCell.Length == averageGain.Length
    ensures forall k :: period - 1 <= k < averageGain.Length ==> rsiCell[k] == RsiValue(averageGain[k], averageLoss[k])
  {
    rsiCell := new real[averageGain.Length];
    for i := period - 1 to averageGain.Length
      invariant forall k :: period - 1 <= k < i ==> rsiCell[k] == RsiValue(averageGain[k], averageLoss[k])
    {
      rsiCell[i] := RsiValue(averageGain[i], averageLoss[i]);
    }
  }

  /** Reads the filled columns back row by row into the frame. */
  method BuildRows(bars: seq<Bar>, period: nat, gain: array<real>, loss: array<real>,
                   averageGain: array<real>, averageLoss: array<real>, rsiCell: array<real>)
    returns (rows: seq<Row>)
    requires 1 <= period && |bars| >= period + 1 && LossesPositive(Closes(bars), period)
    requires gain[..] == Gains(Closes(bars)) && loss[..] == Losses(Closes(bars))
    requires averageGain.Length == averageLoss.Length == rsiCell.Length == |bars| - 1
    requires forall k :: period - 1 <= k < |bars| - 1 ==>
      && averageGain[k] == Smoothed(Gains(Closes(bars)), period, k)
      && averageLoss[k] == Smoothed(Losses(Closes(bars)), period, k)
      && averageGain[k] >= 0.0 && averageLoss[k] > 0.0
      && rsiCell[k] == RsiValue(averageGain[k], averageLoss[k])
    ensures rows == Table(bars, period)
  {
    rows := [];
    for k := 0 to |bars| - 1
      invariant rows == Table(bars, period)[..k]
    {
      var row := if k < period - 1 then Row(bars[k + 1].date, bars[k + 1].close, gain[k], loss[k], None, None, None)
                 else Row(bars[k + 1].date, bars[k + 1].close, gain[k], loss[k],
                          Some(averageGain[k]), Some(averageLoss[k]), Some(rsiCell[k]));
      assert row == TableRow(bars, period, k);
      rows := rows + [row];
    }
  }

  /**
   * `rsi(...)` on the frame `data` that `get_data` fetched: `None` when there
   * is no data, an IndexError when fewer than period + 1 rows leave no full
   * first window, and otherwise the filled frame sliced to start..end.
   */
  method ComputeRsi(data: Option<seq<Bar>>, start: int, end: int, period: nat) returns (r: Result<Option<seq<Row>>>)
    requires period >= 1
    requires RsiDefined(data, period)
    ensures r == RsiFrame(data, start, end, period)
  {
    if data.None? {
      return Ok(None);
    }
    var bars := data.value;
    var n := |bars|;
    if n < 2 {
      return Err(IndexError);  // df.index[1] when chopping the first row
    }
    var gain, loss := FillGainLoss(bars);
    var m := n - 1;
    if m < period {
      return Err(IndexError);  // df.index[i] past the last row while summing the first window
    }
    GainsAndLosses(Closes(bars));
    var sumGain := SumFirst(gain, period);
    var sumLoss := SumFirst(loss, period);
    var averageGain := FillAverage(gain, period, sumGain);
    var averageLoss := FillAverage(loss, period, sumLoss);
    forall k | period - 1 <= k < m
      ensures averageGain[k] >= 0.0
    {
      SmoothedNonNegative(gain[..], period, k);
    }
    var rsiCell := FillRsi(averageGain, averageLoss, period);
    var rows := BuildRows(bars, period, gain, loss, averageGain, averageLoss, rsiCell);
    return Ok(Some(Between(rows, RowDate, start, end)));
  }

  /** What `check_overbought_oversold` reports for one RSI cell; a NaN cell compares false both ways. */
  datatype Signal = Overbought | Oversold | Neutral

  function Classify(rsi: Option<real>): (s: Signal)
    ensures s == Overbought <==> rsi.Some? && rsi.value >= 80.0
    ensures s == Oversold <==> rsi.Some? && rsi.value < 80.0 && rsi.value <= 20.0
    ensures rsi.None? ==> s == Neutral
  {
    if rsi.Some? && rsi.value >= 80.0 then Overbought
    else if rsi.Some? && rsi.value <= 20.0 then Oversold
    else Neutral
  }

  const Banner := "========================="

  /** The three-line message for one reported row, or no message for a neutral one. */
  function SignalBlocks(symbol: string, row: Row, dateText: int -> string): seq<seq<string>> {
    match Classify(row.rsi)
    case Overbought => [[Banner, symbol + " was overbought on " + dateText(row.date), Banner]]
    case Oversold => [[Banner, symbol + " was oversold on " + dateText(row.date), Banner]]
    case Neutral => []
  }

  /** The messages for the rows of a frame, in date order. */
  function Signals(symbol: string, rows: seq<Row>, dateText: int -> string): seq<seq<string>> {
    if rows == [] then [] else Signals(symbol, rows[..|rows| - 1], dateText) + SignalBlocks(symbol, rows[|rows| - 1], dateText)
  }

  /** Only overbought and oversold rows produce a message, each framed by banners, one per row at most. */
  lemma {:induction false} SignalsShape(symbol: string, rows: seq<Row>, dateText: int -> string)
    ensures |Signals(symbol, rows, dateText)| <= |rows|
    ensures forall b :: b in Signals(symbol, rows, dateText) ==> |b| == 3 && b[0] == Banner && b[2] == Banner
    ensures (forall i :: 0 <= i < |rows| ==> Classify(rows[i].rsi) == Neutral) ==> Signals(symbol, rows, dateText) == []
  {
    if rows != [] {
      SignalsShape(symbol, rows[..|rows| - 1], dateText);
      var prefix := rows[..|rows| - 1];
      if forall i :: 0 <= i < |rows| ==> Classify(rows[i].rsi) == Neutral {
        assert forall i :: 0 <= i < |prefix| ==> Classify(prefix[i].rsi) == Neutral by {
          forall i | 0 <= i < |prefix| ensures Classify(prefix[i].rsi) == Neutral {
            assert prefix[i] == rows[i];
          }
        }
      }
    }
  }

  /** What one symbol of `check_overbought_oversold` sends, and whether `rsi` raised for it, given what `rsi` gave back. */
  function RsiWork(symbol: string, frame: Result<Option<seq<Row>>>, dateText: int -> string): Work {
    var checking := ["Checking " + symbol + "..."];
    match frame
    case Err(e) => Work([checking], Some(e))
    case Ok(None) => Work([checking], None)
    case Ok(Some(rows)) => Work([checking] + Signals(symbol, rows, dateText), None)
  }

  /** The work of each of `symbols`, in pop order. */
  function RsiWorks(symbols: seq<string>, fetch: string -> Option<seq<Bar>>, start: int, end: int, period: nat,
                    dateText: int -> string): (w: seq<Work>)
    requires period >= 1 && forall s :: s in symbols ==> RsiDefined(fetch(s), period)
    ensures |w| == |symbols|
  {
    if symbols == [] then []
    else RsiWorks(symbols[..|symbols| - 1], fetch, start, end, period, dateText)
         + [RsiWork(symbols[|symbols| - 1], RsiFrame(fetch(symbols[|symbols| - 1]), start, end, period), dateText)]
  }

  /** Entry i of the works is what the i-th popped symbol produces. */
  lemma {:induction false} RsiWorksAt(symbols: seq<string>, fetch: string -> Option<seq<Bar>>, start: int, end: int,
                                      period: nat, dateText: int -> string, i: nat)
    requires period >= 1 && (forall s :: s in symbols ==> RsiDefined(fetch(s), period)) && i < |symbols|
    ensures RsiWorks(symbols, fetch, start, end, period, dateText)[i]
         == RsiWork(symbols[i], RsiFrame(fetch(symbols[i]), start, end, period), dateText)
  {
    if i < |symbols| - 1 {
      var prefix := symbols[..|symbols| - 1];
      assert forall s :: s in prefix ==> s in symbols;
      RsiWorksAt(prefix, fetch, start, end, period, dateText, i);
      assert prefix[i] == symbols[i];
    }
  }

  /** The inner `for date in df.index` loop: one message per overbought or oversold row. */
  method ReportSignals(symbol: string, rows: seq<Row>, dateText: int -> string, listener: Listener)
    requires listener.Valid()
    modifies listener
    ensures listener.Valid()
    ensures listener.Blocks == old(listener.Blocks) + Signals(symbol, rows, dateText)
  {
    for i := 0 to |rows|
      invariant listener.Valid()
      invariant listener.Blocks == old(listener.Blocks) + Signals(symbol, rows[..i], dateText)
    {
      assert rows[..i + 1][..i] == rows[..i];
      match Classify(rows[i].rsi)
      case Overbought =>
        SendBlock(listener, [Banner, symbol + " was overbought on " + dateText(rows[i].date), Banner]);
      case Oversold =>
        SendBlock(listener, [Banner, symbol + " was oversold on " + dateText(rows[i].date), Banner]);
      case Neutral =>
    }
    assert rows[..|rows|] == rows;
  }

  /** The body of the drain loop once `rsi` has given back `frame`. */
  method ReportFrame(symbol: string, frame: Result<Option<seq<Row>>>, dateText: int -> string, listener: Listener)
    returns (error: Option<Error>)
    requires listener.Valid()
    modifies listener
    ensures listener.Valid()
    ensures listener.Blocks == old(listener.Blocks) + RsiWork(symbol, frame, dateText).blocks
    ensures error == RsiWork(symbol, frame, dateText).error
  {
    var checking := ["Checking " + symbol + "..."];
    SendBlock(listener, checking);
    if frame.Err? {
      return Some(frame.error);
    }
    if frame.value.Some? {
      var rows := frame.value.value;
      ReportSignals(symbol, rows, dateText, listener);
      assert listener.Blocks == old(listener.Blocks) + ([checking] + Signals(symbol, rows, dateText));
    }
    return None;
  }

  /** The body of the drain loop for the popped symbol `queue[k]`: `rsi` on its data, then the report. */
  method CheckSymbol(symbol: string, fetch: string -> Option<seq<Bar>>, start: int, end: int,
                     period: nat, dateText: int -> string, listener: Listener, ghost queue: seq<string>, ghost k: nat)
    returns (error: Option<Error>)
    requires listener.Valid() && period >= 1 && (forall s :: s in queue ==> RsiDefined(fetch(s), period))
    requires k < |queue| && queue[k] == symbol
    modifies listener
    ensures listener.Valid()
    ensures var work := RsiWorks(queue, fetch, start, end, period, dateText)[k];
      listener.Blocks == old(listener.Blocks) + work.blocks && error == work.error
  {
    RsiWorksAt(queue, fetch, start, end, period, dateText, k);
    var frame := ComputeRsi(fetch(symbol), start, end, period);
    error := ReportFrame(symbol, frame, dateText, listener);
  }

  /**
   * `check_overbought_oversold(symbols, start, end, period, listener)`: drains
   * the list, sending "Checking ..." and the signals of each symbol in pop
   * order. `fetch` stands for `get_data` and `dateText` for `str(date)`.
   * The worker ends with the first exception: popping a list that never had
   * a head, or `rsi` indexing past too short a frame.
   */
  method CheckOverboughtOversold(symbols: SyncedList, fetch: string -> Option<seq<Bar>>, start: int, end: int,
                                 period: nat, dateText: int -> string, listener: Listener) returns (r: Result<()>)
    requires symbols.Valid() && listener.Valid() && period >= 1
    requires forall s :: s in symbols.Contents ==> RsiDefined(fetch(s), period)
    modifies symbols, listener
    ensures symbols.Valid() && listener.Valid()
    ensures !symbols.hasHead ==> r == Err(AttributeError) && listener.Blocks == old(listener.Blocks)
    ensures symbols.hasHead ==>
      Drained(old(symbols.Contents), RsiWorks(old(symbols.Contents), fetch, start, end, period, dateText), r,
              symbols.Contents, old(listener.Blocks), listener.Blocks)
  {
    ghost var queue := symbols.Contents;
    ghost var works := RsiWorks(queue, fetch, start, end, period, dateText);
    if !symbols.hasHead {
      var _ := symbols.Pop();
      return Err(AttributeError);
    }
    var popped := PopAt(symbols, queue, 0);
    ghost var k := 0;
    ProgressStart(works, listener.Blocks);
    while popped.value.Some?
      invariant Cursor(symbols, popped, queue, k) && listener.Valid()
      invariant Progress(works, k, old(listener.Blocks), listener.Blocks)
      decreases |queue| - k
    {
      ghost var middle := listener.Blocks;
      var error := CheckSymbol(popped.value.value, fetch, start, end, period, dateText, listener, queue, k);
      assert Cursor(symbols, popped, queue, k);
      if error.Some? {
        r := Err(error.value);
        DrainedAt(queue, works, r, k, old(listener.Blocks), middle, listener.Blocks);
        return;
      }
      ProgressStep(works, k, old(listener.Blocks), middle, listener.Blocks);
      ghost var blocks := listener.Blocks;
      popped := PopAt(symbols, queue, k + 1);
      assert listener.Valid() && listener.Blocks == blocks;
      k := k + 1;
    }
    r := Ok(());
    DrainedAll(queue, works, r, old(listener.Blocks), listener.Blocks);
  }
}
