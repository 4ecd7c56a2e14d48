/**
 * moving_averages.py: the older moving-average script. Its averages run over
 * the whole fetched range, both are fetched from the same day, only the last
 * five trading days are scanned for a cross, and it prints to the console.
 * A fetched frame without an "Adj Close" column (`None` here) raises
 * `KeyError`, which this version does not catch.
 */
module LegacyMovingAverages {
  import opened Wrappers
  import opened DataRequests
  import opened MovingAverages

  /** `moving_average(symbol, start, end, n)`: the n-day averages of every fetched close, none cut off. */
  function LegacyMovingAverage(history: seq<Bar>, start: int, end: int, n: nat): (r: seq<Point>)
    requires n >= 1
    ensures Days(r) == Dates(Fetch(history, start, end))
  {
    var fetched := Fetch(history, start, end);
    var r := Rolling(fetched, n);
    assert Days(r) == Dates(fetched);
    r
  }

  /** `today - timedelta(7 + 2*long)`: the day both averages are fetched from. */
  function Lookback(today: int, long: nat): int {
    today - (7 + 2 * long)
  }

  /** Where `tail(5)` starts in a frame of `size` rows. */
  function TailStart(size: nat): (t: nat)
    ensures t <= size && size - t == if size < 5 then size else 5
  {
    if size < 5 then 0 else size - 5
  }

  /** The short and the long average as `cross_above(symbol, short, long)` fetches them on day `today`. */
  function Averages(history: seq<Bar>, today: int, short: nat, long: nat): (r: (seq<Point>, seq<Point>))
    requires short >= 1 && long >= 1
    ensures |r.0| == |r.1|
  {
    (LegacyMovingAverage(history, Lookback(today, long), today, short),
     LegacyMovingAverage(history, Lookback(today, long), today, long))
  }

  /** The date `cross_above` returns: the first cross among the last five rows, or `None`. */
  function LegacyCrossDate(history: seq<Bar>, today: int, short: nat, long: nat): Option<int>
    requires short >= 1 && long >= 1
  {
    var (s, l) := Averages(history, today, short, long);
    var t := TailStart(|s|);
    CrossOf(s[t..], l[t..])
  }

  /** A cross in the last rows is a cross of the whole frame, shifted by where the tail starts. */
  lemma CrossesInTail(s: seq<Point>, l: seq<Point>, t: nat, j: nat)
    requires |s| == |l| && t <= |s|
    ensures CrossesAt(s[t..], l[t..], j) <==> CrossesAt(s, l, t + j)
  {
    if j + 1 < |s| - t {
      assert s[t..][j] == s[t + j] && s[t..][j + 1] == s[t + j + 1];
      assert l[t..][j] == l[t + j] && l[t..][j + 1] == l[t + j + 1];
    }
  }

  /** The first cross of the tail from row j is the first cross of the whole frame from row t + j, shifted. */
  lemma {:induction false} FirstCrossInTail(s: seq<Point>, l: seq<Point>, t: nat, j: nat)
    requires |s| == |l| && t + j <= |s|
    ensures FirstCross(s[t..], l[t..], j).None? <==> FirstCross(s, l, t + j).None?
    ensures FirstCross(s[t..], l[t..], j).Some? ==>
      FirstCross(s, l, t + j).value == t + FirstCross(s[t..], l[t..], j).value
    decreases |s| - t - j
  {
    if j + 1 < |s| - t {
      CrossesInTail(s, l, t, j);
      if !CrossesAt(s, l, t + j) {
        FirstCrossInTail(s, l, t, j + 1);
      }
    }
  }

  /**
   * The first cross among the last five rows of any two frames of one
   * length: a cross of the whole frame at or after the tail start, with
   * none before it in the tail, or `None` when the tail has none.
   */
  lemma TailCross(s: seq<Point>, l: seq<Point>)
    requires |s| == |l|
    ensures var t := TailStart(|s|);
      var r := CrossOf(s[t..], l[t..]);
      && (r.None? <==> forall j :: t <= j < |s| ==> !CrossesAt(s, l, j))
      && (r.Some? ==> exists i :: && t <= i && |s| - 4 <= i + 1 < |s| && CrossesAt(s, l, i)
                                  && r.value == s[i + 1].date
                                  && forall j :: t <= j < i ==> !CrossesAt(s, l, j))
  {
    var t := TailStart(|s|);
    var tail := FirstCross(s[t..], l[t..], 0);
    FirstCrossInTail(s, l, t, 0);
    var first := FirstCross(s, l, t);
    if first.Some? {
      var i := first.value;
      assert s[t..][tail.value + 1] == s[i + 1];
      assert t <= i && |s| - 4 <= i + 1 < |s| && CrossesAt(s, l, i);
    }
  }

  /**
   * Only the last five rows count: a returned day is one of the last four
   * dates of the frame, the day after the first row of the last five where
   * the short average was at or below the long one and then rose above it;
   * `None` exactly when no adjacent pair among the last five rows crosses.
   */
  lemma LegacyCrossInLastDays(history: seq<Bar>, today: int, short: nat, long: nat)
    requires short >= 1 && long >= 1
    ensures var (s, l) := Averages(history, today, short, long);
      var t := TailStart(|s|);
      var r := LegacyCrossDate(history, today, short, long);
      && (r.None? <==> forall j :: t <= j < |s| ==> !CrossesAt(s, l, j))
      && (r.Some? ==> exists i :: && t <= i && |s| - 4 <= i + 1 < |s| && CrossesAt(s, l, i)
                                  && r.value == s[i + 1].date
                                  && forall j :: t <= j < i ==> !CrossesAt(s, l, j))
  {
    var (s, l) := Averages(history, today, short, long);
    TailCross(s, l);
  }

  /** What `cross_above` prints between "Checking ..." and its return. */
  function CrossLines(symbol: string, day: Option<int>, dateText: int -> string): seq<string> {
    match day
    case None => []
    case Some(d) => [CrossBanner, "Cross above found: " + symbol, "On day " + dateText(d), CrossBanner]
  }

  /**
   * `cross_above(symbol, short, long)` on day `today`, for a symbol with
   * history `history`: the day it returns and the lines it prints.
   * `dateText` stands for `str(date)`.
   */
  method LegacyCrossAbove(symbol: string, history: Option<seq<Bar>>, today: int, short: nat, long: nat,
                          dateText: int -> string) returns (found: Result<Option<int>>, printed: seq<string>)
    requires short >= 1 && long >= 1
    ensures history.None? ==> found == Err(KeyError) && printed == ["Checking " + symbol + "..."]
    ensures history.Some? ==>
      && found == Ok(LegacyCrossDate(history.value, today, short, long))
      && printed == ["Checking " + symbol + "..."] + CrossLines(symbol, found.value, dateText)
  {
    printed := ["Checking " + symbol + "..."];
    if history.None? {
      return Err(KeyError), printed;
    }
    var from := Lookback(today, long);
    var shortAverage := LegacyMovingAverage(history.value, from, today, short);
    var longAverage := LegacyMovingAverage(history.value, from, today, long);
    var t := TailStart(|shortAverage|);
    var i := FindCross(shortAverage[t..], longAverage[t..]);
    if i.None? {
      return Ok(None), printed;
    }
    var day := shortAverage[t..][i.value + 1].date;
    printed := printed + [CrossBanner, "Cross above found: " + symbol, "On day " + dateText(day), CrossBanner];
    return Ok(Some(day)), printed;
  }
}
