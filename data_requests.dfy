/**
 * The price data the scripts fetch. Fetching itself (data_requests.py,
 * pandas_datareader, local CSV files) is not modelled: a symbol's history is an
 * input, and `get_data(symbol, start, end)` is the part of it dated start..end.
 * Dates are day numbers (days since 1970-01-01).
 */
module DataRequests {

  /** One row of a fetched frame: its date and its adjusted close. */
  datatype Bar = Bar(date: int, close: real)

  /** The adjusted closes of `bars`, in order. */
  function Closes(bars: seq<Bar>): (c: seq<real>)
    ensures |c| == |bars| && forall i :: 0 <= i < |bars| ==> c[i] == bars[i].close
  {
    seq(|bars|, i requires 0 <= i < |bars| => bars[i].close)
  }

  /** The dates of `bars`, in order. */
  function Dates(bars: seq<Bar>): (d: seq<int>)
    ensures |d| == |bars| && forall i :: 0 <= i < |bars| ==> d[i] == bars[i].date
  {
    seq(|bars|, i requires 0 <= i < |bars| => bars[i].date)
  }

  /**
   * Label slicing `frame.loc[start:end]` on a date index: the rows dated
   * start..end, in their original order.
   */
  function Between<T(!new)>(rows: seq<T>, dateOf: T -> int, start: int, end: int): (r: seq<T>)
    ensures |r| <= |rows|
  {
    if rows == [] then []
    else
      var last := rows[|rows| - 1];
      Between(rows[..|rows| - 1], dateOf, start, end) + (if start <= dateOf(last) <= end then [last] else [])
  }

  /** The sliced rows are exactly the rows dated start..end. */
  lemma {:induction false} BetweenMembers<T(!new)>(rows: seq<T>, dateOf: T -> int, start: int, end: int)
    ensures forall x :: x in Between(rows, dateOf, start, end) <==> x in rows && start <= dateOf(x) <= end
  {
    if rows != [] {
      var init := rows[..|rows| - 1];
      BetweenMembers(init, dateOf, start, end);
      assert rows == init + [rows[|rows| - 1]];
    }
  }

  /** The index label of a fetched row. */
  function BarDate(b: Bar): int {
    b.date
  }

  /** `get_data(symbol, start, end)` served from the symbol's full history. */
  function Fetch(history: seq<Bar>, start: int, end: int): seq<Bar> {
    Between(history, BarDate, start, end)
  }

  /** Narrowing a fetch to a later start is the same as fetching the narrower range. */
  lemma {:induction false} BetweenNarrow<T(!new)>(rows: seq<T>, dateOf: T -> int, wide: int, start: int, end: int)
    requires wide <= start
    ensures Between(Between(rows, dateOf, wide, end), dateOf, start, end) == Between(rows, dateOf, start, end)
  {
    if rows != [] {
      var init := rows[..|rows| - 1];
      var last := rows[|rows| - 1];
      BetweenNarrow(init, dateOf, wide, start, end);
      var inner := Between(init, dateOf, wide, end);
      var tail := if wide <= dateOf(last) <= end then [last] else [];
      BetweenConcat(inner, tail, dateOf, start, end);
    }
  }

  /** `Between` distributes over concatenation. */
  lemma {:induction false} BetweenConcat<T(!new)>(a: seq<T>, b: seq<T>, dateOf: T -> int, start: int, end: int)
    ensures Between(a + b, dateOf, start, end) == Between(a, dateOf, start, end) + Between(b, dateOf, start, end)
  {
    if b == [] {
      assert a + b == a;
    } else {
      var init := b[..|b| - 1];
      assert (a + b)[..|a + b| - 1] == a + init;
      assert (a + b)[|a + b| - 1] == b[|b| - 1];
      BetweenConcat(a, init, dateOf, start, end);
    }
  }
}
