/**
 * technical_analysis/historical_data.py: how prices move in the days after a
 * run of oversold RSI readings ends. `IndicatorResultTracker` accumulates,
 * per day after an event, the summed relative change, the number of changes
 * and the number of increases; `analyze` scans one symbol's RSI frame and
 * feeds the tracker; `_analyze_thread` drains the shared symbol list.
 */
module HistoricalData {
  import opened Wrappers
  import opened DataRequests
  import opened Messaging
  import opened SyncedLists
  import opened Drains
  import opened Text
  import opened Rsi

  /** The tracker's counters as values: `_occurrences`, `_changes`, `_num_changes`, `_num_increases`. */
  datatype Tally = Tally(occurrences: int, changes: seq<real>, numChanges: seq<int>, numIncreases: seq<int>)

  /** One slot per tracked day in each of the three lists. */
  predicate Shaped(t: Tally, days: nat) {
    |t.changes| == days && |t.numChanges| == days && |t.numIncreases| == days
  }

  /** No count is negative, and no day has more increases than changes. */
  predicate Consistent(t: Tally) {
    && |t.numChanges| == |t.numIncreases|
    && t.occurrences >= 0
    && forall k :: 0 <= k < |t.numChanges| ==> 0 <= t.numIncreases[k] <= t.numChanges[k]
  }

  /** No day has more changes than there were occurrences. */
  predicate Bounded(t: Tally) {
    forall k :: 0 <= k < |t.numChanges| ==> t.numChanges[k] <= t.occurrences
  }

  /** A fresh tracker for `days` days: everything zero. */
  function Empty(days: nat): (t: Tally)
    ensures Shaped(t, days) && Consistent(t) && Bounded(t)
    ensures t.occurrences == 0
    ensures forall k :: 0 <= k < days ==> t.changes[k] == 0.0 && t.numChanges[k] == 0 && t.numIncreases[k] == 0
  {
    Tally(0, seq(days, _ => 0.0), seq(days, _ => 0), seq(days, _ => 0))
  }

  /** `record_occurrence()` on the values. */
  function Occurred(t: Tally): (r: Tally)
    ensures r.occurrences == t.occurrences + 1
    ensures r.changes == t.changes && r.numChanges == t.numChanges && r.numIncreases == t.numIncreases
  {
    t.(occurrences := t.occurrences + 1)
  }

  /** `record_change(change, day)` on the values: only slot day - 1 moves. */
  function Changed(t: Tally, change: real, day: int): (r: Tally)
    requires Shaped(t, |t.changes|) && 1 <= day <= |t.changes|
    ensures Shaped(r, |t.changes|) && r.occurrences == t.occurrences
  {
    var d := day - 1;
    Tally(t.occurrences,
          t.changes[d := t.changes[d] + change],
          t.numChanges[d := t.numChanges[d] + 1],
          t.numIncreases[d := if change > 0.0 then t.numIncreases[d] + 1 else t.numIncreases[d]])
  }

  /**
   * A recorded change moves slot day - 1 only: its sum by `change`, its
   * count by one, and its increases by one exactly when `change` is
   * positive; a consistent tally stays consistent.
   */
  lemma ChangedSlots(t: Tally, change: real, day: int)
    requires Shaped(t, |t.changes|) && 1 <= day <= |t.changes|
    ensures var r := Changed(t, change, day);
      && r.changes[day - 1] == t.changes[day - 1] + change
      && r.numChanges[day - 1] == t.numChanges[day - 1] + 1
      && (r.numIncreases[day - 1] == t.numIncreases[day - 1] + 1 <==> change > 0.0)
      && (r.numIncreases[day - 1] == t.numIncreases[day - 1] <==> change <= 0.0)
      && (forall k :: 0 <= k < |t.changes| && k != day - 1 ==>
            r.changes[k] == t.changes[k] && r.numChanges[k] == t.numChanges[k] && r.numIncreases[k] == t.numIncreases[k])
      && (Consistent(t) ==> Consistent(r))
  {
  }

  /** What `summarize` prints, as numbers: the occurrences and the three per-day columns. */
  datatype Report = Report(occurrences: int, probabilities: seq<real>, averages: seq<real>,
                           alternatives: seq<real>, numChanges: seq<int>)

  /**
   * The values `summarize` prints. Its first loop divides by `_occurrences`
   * once per day and its third by each `_num_changes[i]`, so an integer
   * ZeroDivisionError comes up exactly when one of them is zero and is used.
   */
  function Summary(t: Tally): (r: Result<Report>)
    requires Shaped(t, |t.changes|)
    ensures r.Err? <==> (|t.changes| > 0 && t.occurrences == 0)
                        || (exists k :: 0 <= k < |t.numChanges| && t.numChanges[k] == 0)
    ensures r.Err? ==> r.error == ZeroDivisionError
    ensures r.Ok? ==> && r.value.occurrences == t.occurrences && r.value.numChanges == t.numChanges
                      && |r.value.probabilities| == |r.value.averages| == |r.value.alternatives| == |t.changes|
  {
    var n := |t.changes|;
    if n > 0 && t.occurrences == 0 then Err(ZeroDivisionError)
    else if exists k :: 0 <= k < n && t.numChanges[k] == 0 then Err(ZeroDivisionError)
    else
      Ok(Report(t.occurrences,
                seq(n, i requires 0 <= i < n => 100.0 * (t.numIncreases[i] as real / t.occurrences as real)),
                seq(n, i requires 0 <= i < n => 100.0 * (t.changes[i] / t.occurrences as real)),
                seq(n, i requires 0 <= i < n => 100.0 * (t.changes[i] / t.numChanges[i] as real)),
                t.numChanges))
  }

  /** A count over a larger positive count is a fraction in [0, 1]. */
  lemma Fraction(a: int, b: int)
    requires 0 <= a <= b && b > 0
    ensures 0.0 <= 100.0 * (a as real / b as real) <= 100.0
  {
    var q := a as real / b as real;
    assert q * (b as real) == a as real;
    assert (1.0 - q) * (b as real) == (b - a) as real;
  }

  /** On a consistent, bounded tally every printed probability of increase is a percentage. */
  lemma SummaryProbabilities(t: Tally)
    requires Shaped(t, |t.changes|) && Consistent(t) && Bounded(t) && Summary(t).Ok?
    ensures forall i :: 0 <= i < |t.changes| ==> 0.0 <= Summary(t).value.probabilities[i] <= 100.0
  {
    forall i | 0 <= i < |t.changes|
      ensures 0.0 <= Summary(t).value.probabilities[i] <= 100.0
    {
      Fraction(t.numIncreases[i], t.occurrences);
    }
  }

  class IndicatorResultTracker {
    /** The `days` the tracker was built for: the length of each list. */
    const Days: nat
    var occurrences: int
    var changes: seq<real>
    var numChanges: seq<int>
    var numIncreases: seq<int>

    /** The counters as a value. */
    function Snapshot(): Tally
      reads this
    {
      Tally(occurrences, changes, numChanges, numIncreases)
    }

    ghost predicate Valid()
      reads this
    {
      && Shaped(Snapshot(), Days)
      && Consistent(Snapshot())
    }

    /** `IndicatorResultTracker(days)`: three lists of `days` zeros and no occurrence. */
    constructor (days: nat)
      ensures Valid() && Days == days && Snapshot() == Empty(days)
    {
      Days := days;
      numIncreases := seq(days, _ => 0);
      occurrences := 0;
      changes := seq(days, _ => 0.0);
      numChanges := seq(days, _ => 0);
    }

    /** `record_occurrence()`: one more occurrence, nothing else changes. */
    method RecordOccurrence()
      requires Valid()
      modifies this
      ensures Valid() && Snapshot() == Occurred(old(Snapshot()))
    {
      occurrences := occurrences + 1;
    }

    /**
     * `record_change(change, day)`: adds `change` to day `day`'s sum and
     * counts it, and counts an increase when `change` is positive.
     */
    method RecordChange(change: real, day: int)
      requires Valid() && 1 <= day <= Days
      modifies this
      ensures Valid() && Snapshot() == Changed(old(Snapshot()), change, day)
    {
      changes := changes[day - 1 := changes[day - 1] + change];
      numChanges := numChanges[day - 1 := numChanges[day - 1] + 1];
      if change > 0.0 {
        numIncreases := numIncreases[day - 1 := numIncreases[day - 1] + 1];
      }
    }

    /** `summarize()`: the three columns it prints, or the ZeroDivisionError it stops with. */
    method Summarize() returns (r: Result<Report>)
      requires Valid()
      ensures r == Summary(Snapshot())
    {
      var probabilities: seq<real> := [];
      for i := 0 to |numIncreases|
        invariant |probabilities| == i && (i > 0 ==> occurrences != 0)
        invariant forall k :: 0 <= k < i ==> probabilities[k] == 100.0 * (numIncreases[k] as real / occurrences as real)
      {
        if occurrences == 0 {
          return Err(ZeroDivisionError);
        }
        probabilities := probabilities + [100.0 * (numIncreases[i] as real / occurrences as real)];
      }
      assert |changes| > 0 ==> occurrences != 0;
      var averages: seq<real> := [];
      for i := 0 to |changes|
        invariant |averages| == i
        invariant forall k :: 0 <= k < i ==> averages[k] == 100.0 * (changes[k] / occurrences as real)
      {
        averages := averages + [100.0 * (changes[i] / occurrences as real)];
      }
      var alternatives: seq<real> := [];
      for i := 0 to |changes|
        invariant |alternatives| == i && forall k :: 0 <= k < i ==> numChanges[k] != 0
        invariant forall k :: 0 <= k < i ==> alternatives[k] == 100.0 * (changes[k] / numChanges[k] as real)
      {
        if numChanges[i] == 0 {
          assert Snapshot().numChanges[i] == 0;
          return Err(ZeroDivisionError);
        }
        alternatives := alternatives + [100.0 * (changes[i] / numChanges[i] as real)];
      }
      var counts := numChanges;
      r := Ok(Report(occurrences, probabilities, averages, alternatives, counts));
      ghost var t := Snapshot();
      assert Summary(t).Ok?;
      assert probabilities == Summary(t).value.probabilities;
      assert averages == Summary(t).value.averages;
      assert alternatives == Summary(t).value.alternatives;
    }
  }

  /** The window and period `analyze` hands to `rsi`: 2010-01-01 to 2019-12-31 as days since 1970-01-01, and 14. */
  const Start := 14610
  const End := 18261
  const Period := 14

  const OversoldBanner := "====================================="

  /** `df_rsi["RSI"][date] <= 20`; a NaN cell compares false. */
  predicate IsOversold(row: Row) {
    row.rsi.Some? && row.rsi.value <= 20.0
  }

  /** Every close of the frame is non-zero, so every relative change is defined. */
  predicate NonZeroCloses(rows: seq<Row>) {
    forall k :: 0 <= k < |rows| ==> rows[k].close != 0.0
  }

  /** The change of the close from row i to row j, relative to row i. */
  function Change(rows: seq<Row>, i: nat, j: nat): real
    requires i < j < |rows| && rows[i].close != 0.0
  {
    (rows[j].close - rows[i].close) / rows[i].close
  }

  /** The line logged for a change; `numText` stands for `format(change, '.5f')`. */
  function ChangeLine(symbol: string, change: real, day: nat, numText: real -> string): string {
    "Recording change for " + symbol + " of " + numText(change) + " on day " + NatToString(day)
  }

  /** How many days the inner loop records after an event at row i: up to `days`, and no further than the last row. */
  function ChangeCount(n: nat, i: nat, days: nat): (c: nat)
    requires i < n
    ensures c <= days && i + c < n
    ensures c == days || i + c == n - 1
  {
    if i + days <= n - 1 then days else n - 1 - i
  }

  /**
   * The inner `while j` loop after its first `count` steps, from tally `t`:
   * the lines it added and the tally it left, one change for each of the
   * days 1..count.
   */
  function Recorded(rows: seq<Row>, i: nat, count: nat, symbol: string, numText: real -> string, t: Tally)
    : (r: (seq<string>, Tally))
    requires i + count < |rows| && rows[i].close != 0.0 && Shaped(t, |t.changes|) && count <= |t.changes|
    ensures Shaped(r.1, |t.changes|) && r.1.occurrences == t.occurrences && |r.0| == count
    decreases count
  {
    if count == 0 then ([], t)
    else
      var previous := Recorded(rows, i, count - 1, symbol, numText, t);
      var change := Change(rows, i, i + count);
      (previous.0 + [ChangeLine(symbol, change, count, numText)], Changed(previous.1, change, count))
  }

  /** The inner loop counts one change for each of the days 1..count and no other. */
  lemma {:induction false} RecordedCounts(rows: seq<Row>, i: nat, count: nat, symbol: string, numText: real -> string,
                                          t: Tally)
    requires i + count < |rows| && rows[i].close != 0.0 && Shaped(t, |t.changes|) && count <= |t.changes|
    ensures forall k :: 0 <= k < |t.changes| ==>
      Recorded(rows, i, count, symbol, numText, t).1.numChanges[k] == t.numChanges[k] + (if k < count then 1 else 0)
  {
    if count > 0 {
      RecordedCounts(rows, i, count - 1, symbol, numText, t);
    }
  }

  /** The inner loop never counts more increases than changes. */
  lemma {:induction false} RecordedConsistent(rows: seq<Row>, i: nat, count: nat, symbol: string,
                                              numText: real -> string, t: Tally)
    requires i + count < |rows| && rows[i].close != 0.0 && Shaped(t, |t.changes|) && count <= |t.changes|
    requires Consistent(t)
    ensures Consistent(Recorded(rows, i, count, symbol, numText, t).1)
  {
    if count > 0 {
      RecordedConsistent(rows, i, count - 1, symbol, numText, t);
    }
  }

  /** What `analyze` keeps between rows: the flag, the pending message, the tally and the blocks sent. */
  datatype ScanState = ScanState(lastWasOversold: bool, msg: seq<string>, tally: Tally, blocks: seq<seq<string>>)

  /** The preconditions of a scan over `rows` into a tally shaped like `t`. */
  predicate Scannable(rows: seq<Row>, days: nat, t: Tally) {
    NonZeroCloses(rows) && Shaped(t, |t.changes|) && days <= |t.changes|
  }

  /**
   * One row of the scan. An oversold row sets the flag and queues three
   * lines. The first row after a run sends the queued lines, records the
   * occurrence, sends the (now empty) message again, records the changes of
   * the following days and sends their lines. Any other row does nothing.
   */
  function Step(rows: seq<Row>, i: nat, symbol: string, days: nat, dateText: int -> string, numText: real -> string,
                s: ScanState): (r: ScanState)
    requires i < |rows| && Scannable(rows, days, s.tally)
    ensures Shaped(r.tally, |s.tally.changes|)
  {
    if IsOversold(rows[i]) then
      s.(lastWasOversold := true,
         msg := s.msg + [OversoldBanner, symbol + " was oversold on " + dateText(rows[i].date), OversoldBanner])
    else if s.lastWasOversold then
      var recorded := Recorded(rows, i, ChangeCount(|rows|, i, days), symbol, numText, Occurred(s.tally));
      ScanState(false, [], recorded.1, s.blocks + [s.msg, [], recorded.0])
    else s
  }

  /** The scan after its first i rows, from the tally `t`. */
  function ScanTo(rows: seq<Row>, i: nat, symbol: string, days: nat, dateText: int -> string, numText: real -> string,
                  t: Tally): (r: ScanState)
    requires i <= |rows| && Scannable(rows, days, t)
    ensures Shaped(r.tally, |t.changes|)
  {
    if i == 0 then ScanState(false, [], t, [])
    else Step(rows, i - 1, symbol, days, dateText, numText, ScanTo(rows, i - 1, symbol, days, dateText, numText, t))
  }

  /** The number of rows k < i that end an oversold run: row k - 1 oversold, row k not. */
  function Events(rows: seq<Row>, i: nat): nat
    requires i <= |rows|
  {
    if i <= 1 then 0
    else Events(rows, i - 1) + (if IsOversold(rows[i - 2]) && !IsOversold(rows[i - 1]) then 1 else 0)
  }

  /** The flag says whether the previous row was oversold. */
  lemma {:induction false} ScanFlag(rows: seq<Row>, i: nat, symbol: string, days: nat, dateText: int -> string,
                                    numText: real -> string, t: Tally)
    requires i <= |rows| && Scannable(rows, days, t)
    ensures ScanTo(rows, i, symbol, days, dateText, numText, t).lastWasOversold <==> i > 0 && IsOversold(rows[i - 1])
  {
    if i > 0 {
      ScanFlag(rows, i - 1, symbol, days, dateText, numText, t);
    }
  }

  /**
   * One occurrence per oversold run that a non-oversold row ends; a run
   * still going on at the last row is never counted.
   */
  lemma {:induction false} ScanOccurrences(rows: seq<Row>, i: nat, symbol: string, days: nat, dateText: int -> string,
                                           numText: real -> string, t: Tally)
    requires i <= |rows| && Scannable(rows, days, t)
    ensures ScanTo(rows, i, symbol, days, dateText, numText, t).tally.occurrences == t.occurrences + Events(rows, i)
  {
    if i > 0 {
      ScanOccurrences(rows, i - 1, symbol, days, dateText, numText, t);
      ScanFlag(rows, i - 1, symbol, days, dateText, numText, t);
    }
  }

  /**
   * The scan keeps the tracker consistent, and never gives a day more
   * changes than there were occurrences: each occurrence records at most
   * one change per day.
   */
  lemma {:induction false} ScanKeepsBounds(rows: seq<Row>, i: nat, symbol: string, days: nat, dateText: int -> string,
                                           numText: real -> string, t: Tally)
    requires i <= |rows| && Scannable(rows, days, t) && Consistent(t) && Bounded(t)
    ensures Consistent(ScanTo(rows, i, symbol, days, dateText, numText, t).tally)
    ensures Bounded(ScanTo(rows, i, symbol, days, dateText, numText, t).tally)
  {
    if i > 0 {
      ScanKeepsBounds(rows, i - 1, symbol, days, dateText, numText, t);
      StepKeepsBounds(rows, i - 1, symbol, days, dateText, numText, ScanTo(rows, i - 1, symbol, days, dateText, numText, t));
    }
  }

  /** One row of the scan keeps the tally consistent and bounded. */
  lemma StepKeepsBounds(rows: seq<Row>, i: nat, symbol: string, days: nat, dateText: int -> string,
                        numText: real -> string, s: ScanState)
    requires i < |rows| && Scannable(rows, days, s.tally) && Consistent(s.tally) && Bounded(s.tally)
    ensures Consistent(Step(rows, i, symbol, days, dateText, numText, s).tally)
    ensures Bounded(Step(rows, i, symbol, days, dateText, numText, s).tally)
  {
    if !IsOversold(rows[i]) && s.lastWasOversold {
      var count := ChangeCount(|rows|, i, days);
      RecordedCounts(rows, i, count, symbol, numText, Occurred(s.tally));
      RecordedConsistent(rows, i, count, symbol, numText, Occurred(s.tally));
    }
  }

  /** Every fetched close is non-zero, so the relative changes `analyze` records are defined. */
  predicate NonZeroBars(data: Option<seq<Bar>>) {
    data.Some? ==> forall b :: b in data.value ==> b.close != 0.0
  }

  /** What `analyze` needs of the data fetched for a symbol. */
  ghost predicate Analyzable(data: Option<seq<Bar>>) {
    RsiDefined(data, Period) && NonZeroBars(data)
  }

  /**
   * What `analyze(symbol, tracker, days, listener)` sends and leaves in the
   * tracker, from the tally `t`, given the fetched frame `data`: nothing when
   * the data is missing, the exception when `rsi` raises, and otherwise the
   * scan of the 2010-2019 RSI frame.
   */
  function Analysis(symbol: string, data: Option<seq<Bar>>, days: nat, dateText: int -> string,
                    numText: real -> string, t: Tally): (r: (Work, Tally))
    requires Shaped(t, |t.changes|) && days <= |t.changes| && Analyzable(data)
    ensures Shaped(r.1, |t.changes|)
  {
    match RsiFrame(data, Start, End, Period)
    case Err(e) => (Work([], Some(e)), t)
    case Ok(None) => (Work([], None), t)
    case Ok(Some(rows)) =>
      FrameRowsAreBars(data.value, Period, Start, End);
      var s := ScanTo(rows, |rows|, symbol, days, dateText, numText, t);
      (Work(s.blocks, None), s.tally)
  }

  /** The message lines went from `before` to `lines` and the tally from `t` to `tally` over the first `count` days. */
  ghost predicate Logged(rows: seq<Row>, i: nat, count: nat, symbol: string, numText: real -> string, t: Tally,
                         before: seq<string>, lines: seq<string>, tally: Tally)
  {
    && i + count < |rows| && rows[i].close != 0.0 && Shaped(t, |t.changes|) && count <= |t.changes|
    && var recorded := Recorded(rows, i, count, symbol, numText, t);
    lines == before + recorded.0 && tally == recorded.1
  }

  /** One step of the inner loop: the change of row j relative to row i, logged and recorded as day j - i. */
  method RecordDay(rows: seq<Row>, i: nat, j: nat, symbol: string, numText: real -> string,
                   tracker: IndicatorResultTracker, msg: Message, ghost t: Tally, ghost before: seq<string>)
    requires i < j < |rows| && tracker.Valid() && j - i <= tracker.Days && |t.changes| == tracker.Days
    requires Logged(rows, i, j - i - 1, symbol, numText, t, before, msg.lines, tracker.Snapshot())
    modifies tracker, msg
    ensures tracker.Valid()
    ensures Logged(rows, i, j - i, symbol, numText, t, before, msg.lines, tracker.Snapshot())
  {
    ghost var previous := Recorded(rows, i, j - i - 1, symbol, numText, t);
    var change := (rows[j].close - rows[i].close) / rows[i].close;
    assert change == Change(rows, i, j);
    var line := ChangeLine(symbol, change, j - i, numText);
    msg.AddLine(line);
    tracker.RecordChange(change, j - i);
    assert Recorded(rows, i, j - i, symbol, numText, t) == (previous.0 + [line], Changed(previous.1, change, j - i));
    assert before + previous.0 + [line] == before + (previous.0 + [line]);
  }

  /** The inner `while j` loop: the change of each of the next days relative to row i, as far as the frame goes. */
  method RecordChanges(rows: seq<Row>, i: nat, days: nat, symbol: string, numText: real -> string,
                       tracker: IndicatorResultTracker, msg: Message)
    requires i < |rows| && NonZeroCloses(rows) && tracker.Valid() && days <= tracker.Days
    modifies tracker, msg
    ensures tracker.Valid()
    ensures var recorded := Recorded(rows, i, ChangeCount(|rows|, i, days), symbol, numText, old(tracker.Snapshot()));
      msg.lines == old(msg.lines) + recorded.0 && tracker.Snapshot() == recorded.1
  {
    ghost var t := tracker.Snapshot();
    assert old(msg.lines) + [] == old(msg.lines);
    var j := i + 1;
    while j <= i + days && j < |rows|
      invariant i + 1 <= j <= i + 1 + ChangeCount(|rows|, i, days)
      invariant tracker.Valid()
      invariant Logged(rows, i, j - i - 1, symbol, numText, t, old(msg.lines), msg.lines, tracker.Snapshot())
      decreases |rows| - j
    {
      RecordDay(rows, i, j, symbol, numText, tracker, msg, t, old(msg.lines));
      j := j + 1;
    }
    assert j - i - 1 == ChangeCount(|rows|, i, days);
  }

  /** The branch for the first row after an oversold run: the queued lines, the occurrence, and the changes after it. */
  method RecordEvent(rows: seq<Row>, i: nat, days: nat, symbol: string, numText: real -> string,
                     tracker: IndicatorResultTracker, listener: Listener, msg: Message)
    requires i < |rows| && NonZeroCloses(rows) && tracker.Valid() && listener.Valid() && days <= tracker.Days
    modifies tracker, listener, msg
    ensures tracker.Valid() && listener.Valid() && msg.lines == []
    ensures var recorded := Recorded(rows, i, ChangeCount(|rows|, i, days), symbol, numText, Occurred(old(tracker.Snapshot())));
      tracker.Snapshot() == recorded.1 && listener.Blocks == old(listener.Blocks) + [old(msg.lines), [], recorded.0]
  {
    ghost var queued := msg.lines;
    listener.Send(msg);
    msg.Reset();
    tracker.RecordOccurrence();
    ghost var occurred := tracker.Snapshot();
    listener.Send(msg);
    msg.Reset();
    RecordChanges(rows, i, days, symbol, numText, tracker, msg);
    ghost var recorded := Recorded(rows, i, ChangeCount(|rows|, i, days), symbol, numText, occurred);
    assert tracker.Valid() && msg.lines == recorded.0;
    listener.Send(msg);
    msg.Reset();
    assert tracker.Valid() && tracker.Snapshot() == recorded.1;
    assert listener.Blocks == old(listener.Blocks) + [queued] + [[]] + [recorded.0];
  }

  /** The loop variables of `analyze` stand for the scan state `s`, the listener having gone from `before` to `blocks`. */
  ghost predicate Scanning(s: ScanState, lastWasOversold: bool, lines: seq<string>, tally: Tally,
                           before: seq<seq<string>>, blocks: seq<seq<string>>)
  {
    lastWasOversold == s.lastWasOversold && lines == s.msg && tally == s.tally && blocks == before + s.blocks
  }

  /** The body of the `for i` loop of `analyze`: row i moves the scan one step. */
  method ScanRow(rows: seq<Row>, i: nat, symbol: string, days: nat, dateText: int -> string, numText: real -> string,
                 tracker: IndicatorResultTracker, listener: Listener, msg: Message, lastWasOversold: bool,
                 ghost s: ScanState, ghost before: seq<seq<string>>)
    returns (last: bool)
    requires i < |rows| && NonZeroCloses(rows) && tracker.Valid() && listener.Valid() && days <= tracker.Days
    requires Scanning(s, lastWasOversold, msg.lines, tracker.Snapshot(), before, listener.Blocks)
    modifies tracker, listener, msg
    ensures tracker.Valid() && listener.Valid()
    ensures Scanning(Step(rows, i, symbol, days, dateText, numText, s), last, msg.lines, tracker.Snapshot(), before,
                     listener.Blocks)
  {
    last := lastWasOversold;
    if rows[i].rsi.Some? && rows[i].rsi.value <= 20.0 {
      if !last {
        last := true;
      }
      msg.AddLine(OversoldBanner);
      msg.AddLine(symbol + " was oversold on " + dateText(rows[i].date));
      msg.AddLine(OversoldBanner);
    } else if last {
      RecordEvent(rows, i, days, symbol, numText, tracker, listener, msg);
      assert before + s.blocks + [s.msg, [], Step(rows, i, symbol, days, dateText, numText, s).blocks[|s.blocks| + 2]]
          == before + Step(rows, i, symbol, days, dateText, numText, s).blocks;
      last := false;
    }
  }

  /** The `for i` loop of `analyze` over the RSI frame `rows`. */
  method ScanRows(rows: seq<Row>, symbol: string, days: nat, dateText: int -> string, numText: real -> string,
                  tracker: IndicatorResultTracker, listener: Listener)
    requires NonZeroCloses(rows) && tracker.Valid() && listener.Valid() && days <= tracker.Days
    modifies tracker, listener
    ensures tracker.Valid() && listener.Valid()
    ensures var s := ScanTo(rows, |rows|, symbol, days, dateText, numText, old(tracker.Snapshot()));
      tracker.Snapshot() == s.tally && listener.Blocks == old(listener.Blocks) + s.blocks
  {
    ghost var t := tracker.Snapshot();
    var msg := new Message();
    var lastWasOversold := false;
    assert old(listener.Blocks) + [] == old(listener.Blocks);
    for i := 0 to |rows|
      invariant tracker.Valid() && listener.Valid()
      invariant Scanning(ScanTo(rows, i, symbol, days, dateText, numText, t), lastWasOversold, msg.lines,
                         tracker.Snapshot(), old(listener.Blocks), listener.Blocks)
    {
      lastWasOversold := ScanRow(rows, i, symbol, days, dateText, numText, tracker, listener, msg, lastWasOversold,
                                 ScanTo(rows, i, symbol, days, dateText, numText, t), old(listener.Blocks));
    }
  }

  /** `analyze(symbol, tracker, days, listener)` on the fetched frame `data`; the exception `rsi` raised, if any. */
  method Analyze(symbol: string, data: Option<seq<Bar>>, days: nat, dateText: int -> string, numText: real -> string,
                 tracker: IndicatorResultTracker, listener: Listener) returns (error: Option<Error>)
    requires Analyzable(data) && tracker.Valid() && listener.Valid() && days <= tracker.Days
    modifies tracker, listener
    ensures tracker.Valid() && listener.Valid()
    ensures var a := Analysis(symbol, data, days, dateText, numText, old(tracker.Snapshot()));
      listener.Blocks == old(listener.Blocks) + a.0.blocks && error == a.0.error && tracker.Snapshot() == a.1
  {
    var frame := ComputeRsi(data, Start, End, Period);
    if frame.Err? {
      return Some(frame.error);
    }
    if frame.value.Some? {
      FrameRowsAreBars(data.value, Period, Start, End);
      ScanRows(frame.value.value, symbol, days, dateText, numText, tracker, listener);
    }
    return None;
  }

  /** `analyze` keeps a consistent, bounded tally consistent and bounded. */
  lemma AnalysisKeepsBounds(symbol: string, data: Option<seq<Bar>>, days: nat, dateText: int -> string,
                            numText: real -> string, t: Tally)
    requires Shaped(t, |t.changes|) && days <= |t.changes| && Analyzable(data) && Consistent(t) && Bounded(t)
    ensures Consistent(Analysis(symbol, data, days, dateText, numText, t).1)
    ensures Bounded(Analysis(symbol, data, days, dateText, numText, t).1)
  {
    var frame := RsiFrame(data, Start, End, Period);
    if frame.Ok? && frame.value.Some? {
      FrameRowsAreBars(data.value, Period, Start, End);
      var rows := frame.value.value;
      ScanKeepsBounds(rows, |rows|, symbol, days, dateText, numText, t);
    }
  }

  /** What the worker does for one popped symbol: the "analyzing" line, then `analyze`. */
  function SymbolRun(symbol: string, fetch: string -> Option<seq<Bar>>, days: nat, threadText: string,
                     dateText: int -> string, numText: real -> string, t: Tally): (r: (Work, Tally))
    requires Shaped(t, |t.changes|) && days <= |t.changes| && Analyzable(fetch(symbol))
    ensures Shaped(r.1, |t.changes|)
  {
    var analysis := Analysis(symbol, fetch(symbol), days, dateText, numText, t);
    (Work([["Thread " + threadText + " analyzing " + symbol]] + analysis.0.blocks, analysis.0.error), analysis.1)
  }

  /** The precondition of a worker over `symbols` into a tally shaped like `t`. */
  ghost predicate Runnable(symbols: seq<string>, fetch: string -> Option<seq<Bar>>, days: nat, t: Tally) {
    Shaped(t, |t.changes|) && days <= |t.changes| && forall s :: s in symbols ==> Analyzable(fetch(s))
  }

  /** The work of the first n of `symbols` in pop order, each symbol starting from the tally the previous ones left. */
  function ThreadRun(symbols: seq<string>, n: nat, fetch: string -> Option<seq<Bar>>, days: nat, threadText: string,
                     dateText: int -> string, numText: real -> string, t: Tally): (r: (seq<Work>, Tally))
    requires n <= |symbols| && Runnable(symbols, fetch, days, t)
    ensures |r.0| == n && Shaped(r.1, |t.changes|)
  {
    if n == 0 then ([], t)
    else
      var previous := ThreadRun(symbols, n - 1, fetch, days, threadText, dateText, numText, t);
      var last := SymbolRun(symbols[n - 1], fetch, days, threadText, dateText, numText, previous.1);
      (previous.0 + [last.0], last.1)
  }

  /** Later symbols do not change the work of an earlier one. */
  lemma {:induction false} ThreadRunAt(symbols: seq<string>, n: nat, fetch: string -> Option<seq<Bar>>, days: nat,
                                       threadText: string, dateText: int -> string, numText: real -> string,
                                       t: Tally, k: nat)
    requires k < n <= |symbols| && Runnable(symbols, fetch, days, t)
    ensures ThreadRun(symbols, n, fetch, days, threadText, dateText, numText, t).0[k]
         == ThreadRun(symbols, k + 1, fetch, days, threadText, dateText, numText, t).0[k]
  {
    if k < n - 1 {
      ThreadRunAt(symbols, n - 1, fetch, days, threadText, dateText, numText, t, k);
    }
  }

  /** A worker keeps a consistent, bounded tally consistent and bounded, however many symbols it handles. */
  lemma {:induction false} ThreadRunKeepsBounds(symbols: seq<string>, n: nat, fetch: string -> Option<seq<Bar>>,
                                                days: nat, threadText: string, dateText: int -> string,
                                                numText: real -> string, t: Tally)
    requires n <= |symbols| && Runnable(symbols, fetch, days, t) && Consistent(t) && Bounded(t)
    ensures Consistent(ThreadRun(symbols, n, fetch, days, threadText, dateText, numText, t).1)
    ensures Bounded(ThreadRun(symbols, n, fetch, days, threadText, dateText, numText, t).1)
  {
    if n > 0 {
      ThreadRunKeepsBounds(symbols, n - 1, fetch, days, threadText, dateText, numText, t);
      var previous := ThreadRun(symbols, n - 1, fetch, days, threadText, dateText, numText, t);
      AnalysisKeepsBounds(symbols[n - 1], fetch(symbols[n - 1]), days, dateText, numText, previous.1);
    }
  }

  /** The body of the worker loop for one popped symbol: the "analyzing" line, then `analyze`. */
  method AnalyzeSymbol(symbol: string, fetch: string -> Option<seq<Bar>>, days: nat, threadText: string,
                       dateText: int -> string, numText: real -> string, tracker: IndicatorResultTracker,
                       listener: Listener) returns (error: Option<Error>)
    requires tracker.Valid() && listener.Valid() && days <= tracker.Days && Analyzable(fetch(symbol))
    modifies tracker, listener
    ensures tracker.Valid() && listener.Valid()
    ensures var run := SymbolRun(symbol, fetch, days, threadText, dateText, numText, old(tracker.Snapshot()));
      listener.Blocks == old(listener.Blocks) + run.0.blocks && error == run.0.error && tracker.Snapshot() == run.1
  {
    ghost var t := tracker.Snapshot();
    var line := "Thread " + threadText + " analyzing " + symbol;
    SendBlock(listener, [line]);
    assert tracker.Valid() && tracker.Snapshot() == t;
    ghost var middle := listener.Blocks;
    error := Analyze(symbol, fetch(symbol), days, dateText, numText, tracker, listener);
    ghost var blocks := Analysis(symbol, fetch(symbol), days, dateText, numText, t).0.blocks;
    Appended(old(listener.Blocks), [[line]], blocks, middle, listener.Blocks);
  }

  /** The tally is the one the first k symbols of `queue` leave, from `t`. */
  ghost predicate TalliedAt(queue: seq<string>, k: nat, fetch: string -> Option<seq<Bar>>, days: nat, threadText: string,
                            dateText: int -> string, numText: real -> string, t: Tally, tally: Tally)
  {
    k <= |queue| && Runnable(queue, fetch, days, t)
    && tally == ThreadRun(queue, k, fetch, days, threadText, dateText, numText, t).1
  }

  /** The worker loop's body for `queue[k]`, stated against the run of the whole queue. */
  method AnalyzeNext(symbol: string, fetch: string -> Option<seq<Bar>>, days: nat, threadText: string,
                     dateText: int -> string, numText: real -> string, tracker: IndicatorResultTracker,
                     listener: Listener, ghost queue: seq<string>, ghost k: nat, ghost t: Tally)
    returns (error: Option<Error>)
    requires tracker.Valid() && listener.Valid() && days <= tracker.Days
    requires k < |queue| && queue[k] == symbol
    requires TalliedAt(queue, k, fetch, days, threadText, dateText, numText, t, tracker.Snapshot())
    modifies tracker, listener
    ensures tracker.Valid() && listener.Valid()
    ensures var work := ThreadRun(queue, |queue|, fetch, days, threadText, dateText, numText, t).0[k];
      listener.Blocks == old(listener.Blocks) + work.blocks && error == work.error
    ensures TalliedAt(queue, k + 1, fetch, days, threadText, dateText, numText, t, tracker.Snapshot())
  {
    ThreadRunAt(queue, |queue|, fetch, days, threadText, dateText, numText, t, k);
    error := AnalyzeSymbol(symbol, fetch, days, threadText, dateText, numText, tracker, listener);
  }

  /** One turn of the worker loop: handle `queue[k]`, then pop again unless it raised. */
  method AnalyzeTurn(symbols: SyncedList, symbol: string, fetch: string -> Option<seq<Bar>>, days: nat,
                     threadText: string, dateText: int -> string, numText: real -> string,
                     tracker: IndicatorResultTracker, listener: Listener, ghost queue: seq<string>, ghost k: nat,
                     ghost t: Tally, ghost before: seq<seq<string>>)
    returns (error: Option<Error>, popped: Result<Option<string>>)
    requires Cursor(symbols, Ok(Some(symbol)), queue, k) && tracker.Valid() && listener.Valid() && days <= tracker.Days
    requires TalliedAt(queue, k, fetch, days, threadText, dateText, numText, t, tracker.Snapshot())
    requires Progress(ThreadRun(queue, |queue|, fetch, days, threadText, dateText, numText, t).0, k, before,
                      listener.Blocks)
    modifies symbols, tracker, listener
    ensures tracker.Valid() && listener.Valid()
    ensures TalliedAt(queue, k + 1, fetch, days, threadText, dateText, numText, t, tracker.Snapshot())
    ensures var works := ThreadRun(queue, |queue|, fetch, days, threadText, dateText, numText, t).0;
      && (error.None? ==> Cursor(symbols, popped, queue, k + 1) && Progress(works, k + 1, before, listener.Blocks))
      && (error.Some? ==> && symbols.Valid() && symbols.hasHead && symbols.Contents == queue[k + 1..]
                          && Drained(queue, works, Result<()>.Err(error.value), queue[k + 1..], before,
                                     listener.Blocks))
  {
    ghost var works := ThreadRun(queue, |queue|, fetch, days, threadText, dateText, numText, t).0;
    ghost var middle := listener.Blocks;
    error := AnalyzeNext(symbol, fetch, days, threadText, dateText, numText, tracker, listener, queue, k, t);
    assert Cursor(symbols, Ok(Some(symbol)), queue, k);
    if error.Some? {
      popped := Ok(None);
      DrainedAt(queue, works, Result<()>.Err(error.value), k, before, middle, listener.Blocks);
      return;
    }
    ProgressStep(works, k, before, middle, listener.Blocks);
    ghost var tally := tracker.Snapshot();
    ghost var blocks := listener.Blocks;
    popped := PopAt(symbols, queue, k + 1);
    assert tracker.Valid() && tracker.Snapshot() == tally && listener.Valid() && listener.Blocks == blocks;
  }

  /**
   * `_analyze_thread(symbols, tracker, days, listener)`: drains the list,
   * analyzing each symbol in pop order into the shared tracker. `fetch`
   * stands for reading the local data, `threadText` for
   * `threading.currentThread()`. The worker ends with the first exception:
   * popping a list that never had a head, or `rsi` indexing past too short
   * a frame.
   */
  method AnalyzeThread(symbols: SyncedList, fetch: string -> Option<seq<Bar>>, days: nat, threadText: string,
                       dateText: int -> string, numText: real -> string, tracker: IndicatorResultTracker,
                       listener: Listener) returns (r: Result<()>)
    requires symbols.Valid() && tracker.Valid() && listener.Valid() && days <= tracker.Days
    requires forall s :: s in symbols.Contents ==> Analyzable(fetch(s))
    modifies symbols, tracker, listener
    ensures symbols.Valid() && tracker.Valid() && listener.Valid()
    ensures !symbols.hasHead ==> r == Err(AttributeError) && listener.Blocks == old(listener.Blocks)
                                 && tracker.Snapshot() == old(tracker.Snapshot())
    ensures symbols.hasHead ==>
      && Drained(old(symbols.Contents),
                 ThreadRun(old(symbols.Contents), |old(symbols.Contents)|, fetch, days, threadText, dateText, numText,
                           old(tracker.Snapshot())).0,
                 r, symbols.Contents, old(listener.Blocks), listener.Blocks)
      && |symbols.Contents| <= |old(symbols.Contents)|
      && TalliedAt(old(symbols.Contents), |old(symbols.Contents)| - |symbols.Contents|, fetch, days, threadText,
                   dateText, numText, old(tracker.Snapshot()), tracker.Snapshot())
  {
    ghost var queue := symbols.Contents;
    ghost var t := tracker.Snapshot();
    assert Runnable(queue, fetch, days, t);
    ghost var works := ThreadRun(queue, |queue|, fetch, days, threadText, dateText, numText, t).0;
    if !symbols.hasHead {
      r := Err(AttributeError);
      var _ := symbols.Pop();
      assert tracker.Valid() && tracker.Snapshot() == t;
      return;
    }
    assert queue[0..] == queue;
    var popped := PopAt(symbols, queue, 0);
    assert tracker.Valid() && tracker.Snapshot() == t;
    ghost var k := 0;
    ProgressStart(works, listener.Blocks);
    assert TalliedAt(queue, 0, fetch, days, threadText, dateText, numText, t, tracker.Snapshot());
    while popped.value.Some?
      invariant Cursor(symbols, popped, queue, k) && tracker.Valid() && listener.Valid()
      invariant Progress(works, k, old(listener.Blocks), listener.Blocks)
      invariant TalliedAt(queue, k, fetch, days, threadText, dateText, numText, t, tracker.Snapshot())
      decreases |queue| - k
    {
      var error;
      error, popped := AnalyzeTurn(symbols, popped.value.value, fetch, days, threadText, dateText, numText, tracker,
                                   listener, queue, k, t, old(listener.Blocks));
      if error.Some? {
        r := Err(error.value);
        assert |queue| - |symbols.Contents| == k + 1;
        return;
      }
      k := k + 1;
    }
    r := Ok(());
    DrainedAll(queue, works, r, old(listener.Blocks), listener.Blocks);
  }
}
