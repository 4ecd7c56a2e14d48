/**
 * technical_analysis/moving_averages.py: n-day simple moving averages of the
 * adjusted close, and the search for the first day on which the short
 * average closes above the long one. `get_data` is served from a symbol's
 * history: `None` stands for a fetched frame without an "Adj Close" column,
 * the `KeyError` that `moving_average` catches. A NaN average is `None`.
 */
module MovingAverages {
  import opened Wrappers
  import opened DataRequests
  import opened Messaging
  import opened SyncedLists
  import opened Drains
  import Rsi

  /** One row of the frame `moving_average` returns: its date (the index) and its "Average" cell. */
  datatype Point = Point(date: int, average: Option<real>)

  /** The index label of an averaged row. */
  function PointDate(p: Point): int {
    p.date
  }

  /** The index of an averaged frame, in order. */
  function Days(points: seq<Point>): (d: seq<int>)
    ensures |d| == |points| && forall i :: 0 <= i < |points| ==> d[i] == points[i].date
  {
    seq(|points|, i requires 0 <= i < |points| => points[i].date)
  }

  /** `n + math.ceil((3 * n) / 7)`: how many days before `start` the fetch begins. */
  function Buffer(n: nat): (b: nat)
    ensures b >= n
    ensures 7 * (b - n) >= 3 * n && 7 * (b - n) < 3 * n + 7
  {
    n + (3 * n + 6) / 7
  }

  /** The arithmetic mean of a non-empty window. */
  function Mean(window: seq<real>): real
    requires |window| > 0
  {
    Rsi.Sum(window) / (|window| as real)
  }

  /** The "Average" cell of row k: NaN until n closes are in, then the mean of the last n closes. */
  function AverageAt(bars: seq<Bar>, n: nat, k: nat): Option<real>
    requires n >= 1 && k < |bars|
  {
    if k + 1 >= n then Some(Mean(Closes(bars)[k + 1 - n..k + 1])) else None
  }

  /** `rolling(window=n).mean()`: one averaged row per fetched row, on the same date. */
  function Rolling(bars: seq<Bar>, n: nat): (r: seq<Point>)
    requires n >= 1
    ensures |r| == |bars|
    ensures forall k :: 0 <= k < |bars| ==> r[k].date == bars[k].date
  {
    seq(|bars|, k requires 0 <= k < |bars| => Point(bars[k].date, AverageAt(bars, n, k)))
  }

  /** A sum of values within [lo, hi] lies within |s| times those bounds. */
  lemma {:induction false} SumBetween(s: seq<real>, lo: real, hi: real)
    requires forall i :: 0 <= i < |s| ==> lo <= s[i] <= hi
    ensures lo * (|s| as real) <= Rsi.Sum(s) <= hi * (|s| as real)
  {
    if s != [] {
      SumBetween(s[..|s| - 1], lo, hi);
    }
  }

  /** The mean of values within [lo, hi] lies within [lo, hi]. */
  lemma MeanBetween(window: seq<real>, lo: real, hi: real)
    requires |window| > 0 && forall i :: 0 <= i < |window| ==> lo <= window[i] <= hi
    ensures lo <= Mean(window) <= hi
  {
    SumBetween(window, lo, hi);
    var size := |window| as real;
    var q := Mean(window);
    assert q * size == Rsi.Sum(window);
    assert (q - lo) * size >= 0.0;
    assert (hi - q) * size >= 0.0;
  }

  /**
   * The k-th average is defined exactly from the n-th row on, and then lies
   * within any bounds of the last n closes: a constant series averages to itself.
   */
  lemma RollingWithin(bars: seq<Bar>, n: nat, k: nat, lo: real, hi: real)
    requires n >= 1 && k < |bars|
    requires forall j :: k + 1 - n <= j <= k && 0 <= j ==> lo <= bars[j].close <= hi
    ensures Rolling(bars, n)[k].average.Some? <==> k + 1 >= n
    ensures k + 1 >= n ==> lo <= Rolling(bars, n)[k].average.value <= hi
  {
    assert Rolling(bars, n)[k].average == AverageAt(bars, n, k);
    if k + 1 >= n {
      var window := Closes(bars)[k + 1 - n..k + 1];
      assert AverageAt(bars, n, k) == Some(Mean(window));
      assert forall i :: 0 <= i < |window| ==> window[i] == bars[k + 1 - n + i].close;
      MeanBetween(window, lo, hi);
    }
  }

  /**
   * `moving_average(symbol, start, end, n)`: the n-day averages of the closes
   * fetched from `start - Buffer(n)` to `end`, cut down to the rows dated
   * start..end; `None` when the fetch has no closes.
   */
  function MovingAverage(history: Option<seq<Bar>>, start: int, end: int, n: nat): (r: Option<seq<Point>>)
    requires n >= 1
    ensures r.None? <==> history.None?
    ensures r.Some? ==> forall p :: p in r.value ==> start <= p.date <= end
  {
    match history
    case None => None
    case Some(bars) =>
      var averaged := Rolling(Fetch(bars, start - Buffer(n), end), n);
      BetweenMembers(averaged, PointDate, start, end);
      Some(Between(averaged, PointDate, start, end))
  }

  /** Rows with the same dates, position by position, keep the same dates when cut to a date range. */
  lemma {:induction false} BetweenSameDates(points: seq<Point>, bars: seq<Bar>, start: int, end: int)
    requires |points| == |bars| && forall k :: 0 <= k < |bars| ==> points[k].date == bars[k].date
    ensures Days(Between(points, PointDate, start, end)) == Dates(Between(bars, BarDate, start, end))
  {
    if bars != [] {
      var n := |bars| - 1;
      BetweenSameDates(points[..n], bars[..n], start, end);
      var p := Between(points[..n], PointDate, start, end);
      var b := Between(bars[..n], BarDate, start, end);
      var pLast := if start <= points[n].date <= end then [points[n]] else [];
      var bLast := if start <= bars[n].date <= end then [bars[n]] else [];
      assert Between(points, PointDate, start, end) == p + pLast;
      assert Between(bars, BarDate, start, end) == b + bLast;
      assert Days(pLast) == Dates(bLast);
      assert Days(p + pLast) == Days(p) + Days(pLast);
      assert Dates(b + bLast) == Dates(b) + Dates(bLast);
    }
  }

  /**
   * Whatever the window, the averaged frame is indexed by the trading days of
   * start..end: the short and the long average of one symbol have the same rows.
   */
  lemma MovingAverageDates(bars: seq<Bar>, start: int, end: int, n: nat)
    requires n >= 1
    ensures Days(MovingAverage(Some(bars), start, end, n).value) == Dates(Fetch(bars, start, end))
  {
    var wide := start - Buffer(n);
    var fetched := Fetch(bars, wide, end);
    var averaged := Rolling(fetched, n);
    assert MovingAverage(Some(bars), start, end, n).value == Between(averaged, PointDate, start, end);
    BetweenSameDates(averaged, fetched, start, end);
    BetweenNarrow(bars, BarDate, wide, start, end);
    assert Between(fetched, BarDate, start, end) == Fetch(bars, start, end);
  }

  /** `a <= b` on two average cells: false when either is NaN. */
  predicate AtOrBelow(a: Option<real>, b: Option<real>) {
    a.Some? && b.Some? && a.value <= b.value
  }

  /** `a > b` on two average cells: false when either is NaN. */
  predicate Above(a: Option<real>, b: Option<real>) {
    a.Some? && b.Some? && a.value > b.value
  }

  /** The short average is at or below the long one on row i and strictly above it on row i + 1. */
  predicate CrossesAt(short: seq<Point>, long: seq<Point>, i: nat)
    requires |short| == |long|
  {
    i + 1 < |short| && AtOrBelow(short[i].average, long[i].average)
    && Above(short[i + 1].average, long[i + 1].average)
  }

  /** The first row, from `from` on, where the short average crosses above the long one. */
  function FirstCross(short: seq<Point>, long: seq<Point>, from: nat): (r: Option<nat>)
    requires |short| == |long| && from <= |short|
    ensures r.Some? ==> from <= r.value && CrossesAt(short, long, r.value)
    ensures r.Some? ==> forall j :: from <= j < r.value ==> !CrossesAt(short, long, j)
    ensures r.None? <==> forall j :: from <= j < |short| ==> !CrossesAt(short, long, j)
    decreases |short| - from
  {
    if from + 1 >= |short| then None
    else if CrossesAt(short, long, from) then Some(from)
    else FirstCross(short, long, from + 1)
  }

  /** The date of the row after the first cross of `short` above `long`, or `None`. */
  function CrossOf(short: seq<Point>, long: seq<Point>): (r: Option<int>)
    requires |short| == |long|
    ensures r.Some? ==> exists i :: 0 < i < |short| && r.value == short[i].date
  {
    match FirstCross(short, long, 0)
    case None => None
    case Some(i) => Some(short[i + 1].date)
  }

  /**
   * The date is that of the row after the first row where the short average
   * was at or below the long one and then rose strictly above it; `None`
   * exactly when no adjacent pair of rows crosses (equality is not a cross).
   */
  lemma CrossOfIsFirst(short: seq<Point>, long: seq<Point>)
    requires |short| == |long|
    ensures CrossOf(short, long).None? <==> forall j :: 0 <= j < |short| ==> !CrossesAt(short, long, j)
    ensures CrossOf(short, long).Some? ==>
      exists i :: && CrossesAt(short, long, i) && CrossOf(short, long).value == short[i + 1].date
                  && forall j :: 0 <= j < i ==> !CrossesAt(short, long, j)
  {
    var first := FirstCross(short, long, 0);
    if first.Some? {
      var i := first.value;
      assert CrossOf(short, long) == Some(short[i + 1].date);
      assert CrossesAt(short, long, i) && forall j :: 0 <= j < i ==> !CrossesAt(short, long, j);
    } else {
      assert CrossOf(short, long) == None;
    }
  }

  /** The date `cross_above` returns for a symbol with history `history`. */
  function CrossDate(history: Option<seq<Bar>>, short: nat, long: nat, start: int, end: int): (r: Option<int>)
    requires short >= 1 && long >= 1
    ensures history.None? ==> r.None?
    ensures r.Some? ==> start <= r.value <= end
  {
    match history
    case None => None
    case Some(bars) =>
      MovingAverageDates(bars, start, end, short);
      MovingAverageDates(bars, start, end, long);
      var s := MovingAverage(history, start, end, short).value;
      var r := CrossOf(s, MovingAverage(history, start, end, long).value);
      assert r.Some? ==> exists i :: 0 <= i < |s| && s[i] in s && r.value == s[i].date;
      r
  }

  /** The `for i in range(len(days) - 1)` scan: the first row that starts a cross. */
  method FindCross(short: seq<Point>, long: seq<Point>) returns (found: Option<nat>)
    requires |short| == |long|
    ensures found == FirstCross(short, long, 0)
  {
    var i := 0;
    while i + 1 < |short|
      invariant forall j :: 0 <= j < i ==> !CrossesAt(short, long, j)
    {
      if AtOrBelow(short[i].average, long[i].average) && Above(short[i + 1].average, long[i + 1].average) {
        assert CrossesAt(short, long, i);
        return Some(i);
      }
      i := i + 1;
    }
    return None;
  }

  /** The line framing a cross report. */
  const CrossBanner := "============|============"

  /** The line framing a missing-data report: 54 asterisks. */
  const Stars := "******************************************************"

  /** What `cross_above(symbol, ...)` sends: the "Checking" line, then a cross report or a missing-data report. */
  function CrossWork(symbol: string, history: Option<seq<Bar>>, short: nat, long: nat, start: int, end: int,
                     dateText: int -> string): Work
    requires short >= 1 && long >= 1
  {
    var checking := ["Checking " + symbol + "..."];
    if history.None? then Work([checking, [Stars, "Couldn't get data for " + symbol, Stars]], None)
    else Work([checking] + CrossReport(symbol, CrossDate(history, short, long, start, end), dateText), None)
  }

  /** The cross report for `day`, if there is one. */
  function CrossReport(symbol: string, day: Option<int>, dateText: int -> string): seq<seq<string>> {
    match day
    case None => []
    case Some(d) => [[CrossBanner, "Cross above found: " + symbol, "On day " + dateText(d), CrossBanner]]
  }

  /** The scan of the two averages of `symbol` and the report of its first cross. */
  method ReportCross(symbol: string, short: seq<Point>, long: seq<Point>, listener: Listener,
                     dateText: int -> string) returns (found: Option<int>)
    requires listener.Valid() && |short| == |long|
    modifies listener
    ensures listener.Valid()
    ensures found == CrossOf(short, long)
    ensures listener.Blocks == old(listener.Blocks) + CrossReport(symbol, found, dateText)
  {
    var i := FindCross(short, long);
    if i.None? {
      return None;
    }
    found := Some(short[i.value + 1].date);
    SendBlock(listener, [CrossBanner, "Cross above found: " + symbol, "On day " + dateText(found.value), CrossBanner]);
  }

  /**
   * `cross_above(symbol, listener, short, long, start, end)`: scans adjacent
   * rows of the two averages and returns the day of the first cross, after
   * reporting it; `dateText` stands for `str(date)`.
   */
  method CrossAbove(symbol: string, history: Option<seq<Bar>>, listener: Listener, short: nat, long: nat,
                    start: int, end: int, dateText: int -> string) returns (found: Option<int>)
    requires listener.Valid() && short >= 1 && long >= 1
    modifies listener
    ensures listener.Valid()
    ensures listener.Blocks
         == old(listener.Blocks) + CrossWork(symbol, history, short, long, start, end, dateText).blocks
    ensures found == CrossDate(history, short, long, start, end)
  {
    var checking := ["Checking " + symbol + "..."];
    SendBlock(listener, checking);
    var shortAverage := MovingAverage(history, start, end, short);
    var longAverage := MovingAverage(history, start, end, long);
    if shortAverage.None? || longAverage.None? {
      SendBlock(listener, [Stars, "Couldn't get data for " + symbol, Stars]);
      return None;
    }
    MovingAverageDates(history.value, start, end, short);
    MovingAverageDates(history.value, start, end, long);
    ghost var middle := listener.Blocks;
    found := ReportCross(symbol, shortAverage.value, longAverage.value, listener, dateText);
    Appended(old(listener.Blocks), [checking], CrossReport(symbol, found, dateText), middle, listener.Blocks);
  }

  /** The work of each of `symbols`, in pop order; none of it raises. */
  function CrossWorks(symbols: seq<string>, history: string -> Option<seq<Bar>>, short: nat, long: nat,
                      start: int, end: int, dateText: int -> string): (w: seq<Work>)
    requires short >= 1 && long >= 1
    ensures |w| == |symbols|
  {
    seq(|symbols|, k requires 0 <= k < |symbols| =>
      CrossWork(symbols[k], history(symbols[k]), short, long, start, end, dateText))
  }

  /** A `check_for_cross` worker never stops early: no symbol's work raises, so it drains the whole queue. */
  lemma CrossWorksNeverRaise(symbols: seq<string>, history: string -> Option<seq<Bar>>, short: nat, long: nat,
                             start: int, end: int, dateText: int -> string)
    requires short >= 1 && long >= 1
    ensures FirstError(CrossWorks(symbols, history, short, long, start, end, dateText)) == |symbols|
  {
    var works := CrossWorks(symbols, history, short, long, start, end, dateText);
    FirstErrorAt(works, |symbols|);
  }

  /** The body of the drain loop for the popped symbol `queue[k]`. */
  method CheckSymbol(symbol: string, history: string -> Option<seq<Bar>>, listener: Listener, short: nat, long: nat,
                     start: int, end: int, dateText: int -> string, ghost queue: seq<string>, ghost k: nat)
    requires listener.Valid() && short >= 1 && long >= 1 && k < |queue| && queue[k] == symbol
    modifies listener
    ensures listener.Valid()
    ensures listener.Blocks
         == old(listener.Blocks) + CrossWorks(queue, history, short, long, start, end, dateText)[k].blocks
  {
    var _ := CrossAbove(symbol, history(symbol), listener, short, long, start, end, dateText);
  }

  /**
   * `check_for_cross(lst, listener, short, long, start, end)`: pops symbols
   * and runs `cross_above` on each, in pop order, until the list is empty.
   * Only popping a list that never had a head raises.
   */
  method CheckForCross(symbols: SyncedList, history: string -> Option<seq<Bar>>, listener: Listener, short: nat,
                       long: nat, start: int, end: int, dateText: int -> string) returns (r: Result<()>)
    requires symbols.Valid() && listener.Valid() && short >= 1 && long >= 1
    modifies symbols, listener
    ensures symbols.Valid() && listener.Valid()
    ensures !symbols.hasHead ==> r == Err(AttributeError) && listener.Blocks == old(listener.Blocks)
    ensures symbols.hasHead ==>
      && r == Ok(()) && symbols.Contents == []
      && listener.Blocks == old(listener.Blocks)
                          + SentBlocks(CrossWorks(old(symbols.Contents), history, short, long, start, end, dateText))
  {
    ghost var queue := symbols.Contents;
    ghost var works := CrossWorks(queue, history, short, long, start, end, dateText);
    if !symbols.hasHead {
      var _ := symbols.Pop();
      return Err(AttributeError);
    }
    var popped := PopAt(symbols, queue, 0);
    ghost var k := 0;
    ProgressStart(works, listener.Blocks);
    while popped.value.Some?
      invariant Cursor(symbols, popped, queue, k) && listener.Valid()
      invariant Progress(works, k, old(listener.Blocks), listener.Blocks)
      decreases |queue| - k
    {
      ghost var middle := listener.Blocks;
      CheckSymbol(popped.value.value, history, listener, short, long, start, end, dateText, queue, k);
      assert Cursor(symbols, popped, queue, k);
      ProgressStep(works, k, old(listener.Blocks), middle, listener.Blocks);
      ghost var blocks := listener.Blocks;
      popped := PopAt(symbols, queue, k + 1);
      assert listener.Valid() && listener.Blocks == blocks;
      k := k + 1;
    }
    assert works[..|queue|] == works;
    return Ok(());
  }
}
