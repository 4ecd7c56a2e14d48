/**
 * day-to-day-analysis.py: `get_max_increase_from_yesterday` and
 * `get_min_increase_from_yesterday` keep, for the symbols of a column, at
 * most 100 relative changes between yesterday's and today's close. `data`
 * stands for `get_data` over the last two days: a symbol's closes, or
 * `None` when the fetch raised (which the script catches and skips).
 */
module DayToDay {
  import opened Wrappers
  import opened Text
  import opened Dicts

  /** The number of symbols either dict keeps. */
  const Capacity: nat := 100

  /**
   * The symbol and its change `(today - yesterday) / yesterday`, or `None`
   * when the script skips the cell: not a string, not alphabetic, no data,
   * or not exactly two closes. A close of zero yesterday raises ZeroDivisionError.
   */
  function Increase(cell: Cell, data: string -> Option<seq<real>>): (r: Result<Option<(string, real)>>)
    ensures r.Ok? && r.value.Some? ==>
      && Usable(cell) && r.value.value.0 == cell.text
      && data(cell.text).Some? && |data(cell.text).value| == 2 && data(cell.text).value[0] != 0.0
      && r.value.value.1 * data(cell.text).value[0] == data(cell.text).value[1] - data(cell.text).value[0]
    ensures r.Err? <==> Usable(cell) && data(cell.text).Some? && |data(cell.text).value| == 2
                        && data(cell.text).value[0] == 0.0
  {
    if !Usable(cell) then Ok(None)
    else match data(cell.text)
      case None => Ok(None)
      case Some(closes) =>
        if |closes| != 2 then Ok(None)
        else if closes[0] == 0.0 then Err(ZeroDivisionError)
        else Ok(Some((cell.text, (closes[1] - closes[0]) / closes[0])))
  }

  /**
   * Which of the two functions runs: `Largest` and `Smallest` keep the
   * largest and the smallest changes; `LargestAsWritten` is the max variant
   * with the comparison the script actually makes.
   */
  datatype Rule = Largest | LargestAsWritten | Smallest

  /**
   * The max variant at capacity as written: the first smallest item gives
   * way when it is strictly LARGER than the new value.
   */
  function DropSmallestAsWritten(d: Dict, key: string, value: real): (r: Dict)
    requires |d| > 0
    ensures |r| <= |d|
  {
    var m := FirstMin(d);
    assert Keys(d)[m] == d[m].0;
    if d[m].1 > value then Set(Pop(d, d[m].0), key, value) else d
  }

  /** One accepted symbol meets the dict: inserted below capacity, else the rule decides. */
  function Place(rule: Rule, d: Dict, key: string, value: real): (r: Dict)
    ensures |d| <= Capacity ==> |r| <= Capacity
  {
    if |d| < Capacity then Set(d, key, value)
    else
      match rule
      case Largest => KeepLarger(d, key, value)
      case LargestAsWritten => DropSmallestAsWritten(d, key, value)
      case Smallest => KeepSmaller(d, key, value)
  }

  /** The body of the loop over the column for one cell, with the dict at `d`. */
  function Step(rule: Rule, d: Dict, cell: Cell, data: string -> Option<seq<real>>): Result<Dict> {
    match Increase(cell, data)
    case Err(e) => Err(e)
    case Ok(None) => Ok(d)
    case Ok(Some(item)) => Ok(Place(rule, d, item.0, item.1))
  }

  /** The function over the symbol column `cells`: the `result` dict it returns, or the exception. */
  function Scan(rule: Rule, cells: seq<Cell>, data: string -> Option<seq<real>>): Result<Dict> {
    if cells == [] then Ok([])
    else
      match Scan(rule, cells[..|cells| - 1], data)
      case Err(e) => Err(e)
      case Ok(d) => Step(rule, d, cells[|cells| - 1], data)
  }

  /** The (symbol, change) items of the cells the script does not skip, in order. */
  function Accepted(cells: seq<Cell>, data: string -> Option<seq<real>>): Dict {
    if cells == [] then []
    else
      Accepted(cells[..|cells| - 1], data)
      + match Increase(cells[|cells| - 1], data) case Ok(Some(item)) => [item] case _ => []
  }

  /** Whatever the rule and whatever the symbols, the dict never holds more than 100 items. */
  lemma {:induction false} ScanBound(rule: Rule, cells: seq<Cell>, data: string -> Option<seq<real>>)
    requires Scan(rule, cells, data).Ok?
    ensures |Scan(rule, cells, data).value| <= Capacity
  {
    if cells != [] {
      ScanBound(rule, cells[..|cells| - 1], data);
    }
  }

  /** The scan raises exactly when some cell has two closes and a zero first one, and then ZeroDivisionError. */
  lemma {:induction false} ScanFails(rule: Rule, cells: seq<Cell>, data: string -> Option<seq<real>>)
    ensures Scan(rule, cells, data).Err? <==> exists i :: 0 <= i < |cells| && Increase(cells[i], data).Err?
    ensures Scan(rule, cells, data).Err? ==> Scan(rule, cells, data).error == ZeroDivisionError
  {
    if cells != [] {
      var init := cells[..|cells| - 1];
      ScanFails(rule, init, data);
      forall i | 0 <= i < |init| ensures init[i] == cells[i] { }
      if Scan(rule, init, data).Ok? && Increase(cells[|cells| - 1], data).Err? {
        assert 0 <= |cells| - 1 < |cells| && Increase(cells[|cells| - 1], data).Err?;
      }
      if Scan(rule, cells, data).Ok? {
        forall i | 0 <= i < |cells| ensures Increase(cells[i], data).Ok? {
          if i < |init| {
            assert Increase(init[i], data).Ok?;
          }
        }
      }
    }
  }

  /** An exception ends the scan: once a prefix raised, the whole column raises the same. */
  lemma {:induction false} ErrorStays(rule: Rule, cells: seq<Cell>, data: string -> Option<seq<real>>, i: nat)
    requires i <= |cells| && Scan(rule, cells[..i], data).Err?
    ensures Scan(rule, cells, data) == Scan(rule, cells[..i], data)
    decreases |cells|
  {
    if i < |cells| {
      var init := cells[..|cells| - 1];
      assert init[..i] == cells[..i];
      ErrorStays(rule, init, data, i);
    } else {
      assert cells[..i] == cells;
    }
  }

  /** Keys that are distinct in a dict are distinct in each of its prefixes, and a last key is new to them. */
  lemma DistinctLast(pool: Dict, item: (string, real))
    requires Distinct(pool + [item])
    ensures Distinct(pool) && item.0 !in Keys(pool)
  {
    assert forall i :: 0 <= i < |pool| ==> (pool + [item])[i] == pool[i];
    assert (pool + [item])[|pool|] == item;
    forall i | 0 <= i < |pool| ensures Keys(pool)[i] != item.0 {
      assert (pool + [item])[i].0 != (pool + [item])[|pool|].0;
    }
  }

  /** The pool of items the scan has seen grows by the item of the last cell, if any. */
  lemma AcceptedLast(cells: seq<Cell>, data: string -> Option<seq<real>>)
    requires cells != []
    ensures var step := Increase(cells[|cells| - 1], data);
      Accepted(cells, data)
      == if step.Ok? && step.value.Some? then Accepted(cells[..|cells| - 1], data) + [step.value.value]
         else Accepted(cells[..|cells| - 1], data)
  {
    var init := Accepted(cells[..|cells| - 1], data);
    assert init + [] == init;
  }

  /** The corrected max variant keeps the 100 largest changes of distinct symbols (all of them while fewer). */
  lemma {:induction false} TopHundred(cells: seq<Cell>, data: string -> Option<seq<real>>)
    requires Distinct(Accepted(cells, data)) && Scan(Largest, cells, data).Ok?
    ensures TopOf(Scan(Largest, cells, data).value, Accepted(cells, data), Capacity)
  {
    if cells == [] {
      EmptyTop(Capacity);
    } else {
      var init := cells[..|cells| - 1];
      var step := Increase(cells[|cells| - 1], data);
      AcceptedLast(cells, data);
      var d := Scan(Largest, init, data).value;
      if step.Ok? && step.value.Some? {
        var item := step.value.value;
        DistinctLast(Accepted(init, data), item);
        TopHundred(init, data);
        if |d| < Capacity {
          InsertTop(d, Accepted(init, data), Capacity, item.0, item.1);
        } else {
          KeepLargerTop(d, Accepted(init, data), Capacity, item.0, item.1);
        }
      } else {
        TopHundred(init, data);
      }
    }
  }

  /** The min variant keeps the 100 smallest changes of distinct symbols (all of them while fewer). */
  lemma {:induction false} BottomHundred(cells: seq<Cell>, data: string -> Option<seq<real>>)
    requires Distinct(Accepted(cells, data)) && Scan(Smallest, cells, data).Ok?
    ensures BottomOf(Scan(Smallest, cells, data).value, Accepted(cells, data), Capacity)
  {
    if cells == [] {
      EmptyTop(Capacity);
    } else {
      var init := cells[..|cells| - 1];
      var step := Increase(cells[|cells| - 1], data);
      AcceptedLast(cells, data);
      var d := Scan(Smallest, init, data).value;
      if step.Ok? && step.value.Some? {
        var item := step.value.value;
        DistinctLast(Accepted(init, data), item);
        BottomHundred(init, data);
        if |d| < Capacity {
          InsertBottom(d, Accepted(init, data), Capacity, item.0, item.1);
        } else {
          KeepSmallerBottom(d, Accepted(init, data), Capacity, item.0, item.1);
        }
      } else {
        BottomHundred(init, data);
      }
    }
  }

  /**
   * The max variant as written loses a larger change: with 100 changes kept,
   * a new symbol whose change is larger than all of them is dropped, so the
   * dict no longer holds the 100 largest.
   */
  lemma AsWrittenDropsLarger(d: Dict, pool: Dict, key: string, value: real)
    requires TopOf(d, pool, Capacity) && |d| == Capacity && key !in Keys(pool)
    requires forall e :: e in d ==> e.1 < value
    ensures !TopOf(Place(LargestAsWritten, d, key, value), pool + [(key, value)], Capacity)
  {
    FreshKey(d, pool, key);
    assert Place(LargestAsWritten, d, key, value) == d;
    assert (key, value) !in d by {
      if (key, value) in d {
        KeyOf(d, (key, value));
      }
    }
    assert d[0] in d;
  }

  /**
   * The body of the loop for one cell: skip it, raise, or update `result`,
   * with the search for the first smallest (largest) key at capacity.
   */
  method Visit(rule: Rule, cell: Cell, data: string -> Option<seq<real>>, result: Dict) returns (r: Result<Dict>)
    ensures r == Step(rule, result, cell, data)
  {
    if !Usable(cell) {
      return Ok(result);
    }
    var symbol := cell.text;
    var fetched := data(symbol);
    if fetched.None? || |fetched.value| != 2 {
      return Ok(result);
    }
    var yes, td := fetched.value[0], fetched.value[1];
    if yes == 0.0 {
      return Err(ZeroDivisionError);
    }
    var inc := (td - yes) / yes;
    assert Increase(cell, data) == Ok(Some((symbol, inc)));
    var next := Put(rule, result, symbol, inc);
    return Ok(next);
  }

  /** The part of the loop body that puts an accepted symbol and its change into `result`. */
  method Put(rule: Rule, result: Dict, symbol: string, inc: real) returns (r: Dict)
    ensures r == Place(rule, result, symbol, inc)
  {
    if |result| < Capacity {
      return Set(result, symbol, inc);
    }
    match rule {
      case Largest =>
        r := ReplaceSmallest(result, symbol, inc);
      case LargestAsWritten =>
        r := ReplaceSmallestAsWritten(result, symbol, inc);
      case Smallest =>
        r := ReplaceLargest(result, symbol, inc);
    }
  }

  /** The search for the first smallest key, then the replacement when that item is larger than `inc`. */
  method ReplaceSmallestAsWritten(result: Dict, symbol: string, inc: real) returns (r: Dict)
    requires |result| > 0
    ensures r == DropSmallestAsWritten(result, symbol, inc)
  {
    var min := FindFirstMin(result);
    r := result;
    if result[min].1 > inc {
      r := Set(Pop(result, result[min].0), symbol, inc);
    }
  }

  /** The loop over the column, ended by the first exception. */
  method ScanColumn(rule: Rule, cells: seq<Cell>, data: string -> Option<seq<real>>) returns (r: Result<Dict>)
    ensures r == Scan(rule, cells, data)
  {
    var result: Dict := [];
    for i := 0 to |cells|
      invariant Scan(rule, cells[..i], data) == Ok(result)
    {
      assert cells[..i + 1][..i] == cells[..i] && cells[..i + 1][i] == cells[i];
      var next := Visit(rule, cells[i], data, result);
      if next.Err? {
        ErrorStays(rule, cells, data, i + 1);
        return next;
      }
      result := next.value;
    }
    assert cells[..|cells|] == cells;
    return Ok(result);
  }

  /**
   * `get_max_increase_from_yesterday()` over the symbol column `cells`, with
   * the comparison as written: at most 100 items, and ZeroDivisionError
   * exactly when a used symbol's first close is zero. It need not keep the
   * 100 largest changes (see `AsWrittenDropsLarger`).
   */
  method GetMaxIncreaseFromYesterdayAsWritten(cells: seq<Cell>, data: string -> Option<seq<real>>)
    returns (r: Result<Dict>)
    ensures r == Scan(LargestAsWritten, cells, data)
    ensures r.Ok? ==> |r.value| <= Capacity
    ensures r.Err? <==> exists i :: 0 <= i < |cells| && Increase(cells[i], data).Err?
  {
    r := ScanColumn(LargestAsWritten, cells, data);
    ScanFails(LargestAsWritten, cells, data);
    if r.Ok? {
      ScanBound(LargestAsWritten, cells, data);
    }
  }

  /**
   * `get_max_increase_from_yesterday()` over the symbol column `cells`, with
   * the comparison corrected: at most 100 items, the 100 largest changes
   * when the symbols are distinct, and ZeroDivisionError exactly when a
   * used symbol's first close is zero.
   */
  method GetMaxIncreaseFromYesterday(cells: seq<Cell>, data: string -> Option<seq<real>>) returns (r: Result<Dict>)
    ensures r == Scan(Largest, cells, data)
    ensures r.Ok? ==> |r.value| <= Capacity
    ensures r.Err? <==> exists i :: 0 <= i < |cells| && Increase(cells[i], data).Err?
    ensures r.Ok? && Distinct(Accepted(cells, data)) ==> TopOf(r.value, Accepted(cells, data), Capacity)
  {
    r := ScanColumn(Largest, cells, data);
    ScanFails(Largest, cells, data);
    if r.Ok? {
      ScanBound(Largest, cells, data);
      if Distinct(Accepted(cells, data)) {
        TopHundred(cells, data);
      }
    }
  }

  /**
   * `get_min_increase_from_yesterday()` over the symbol column `cells`: at
   * most 100 items, the 100 smallest changes when the symbols are distinct,
   * and ZeroDivisionError exactly when a used symbol's first close is zero.
   */
  method GetMinIncreaseFromYesterday(cells: seq<Cell>, data: string -> Option<seq<real>>) returns (r: Result<Dict>)
    ensures r == Scan(Smallest, cells, data)
    ensures r.Ok? ==> |r.value| <= Capacity
    ensures r.Err? <==> exists i :: 0 <= i < |cells| && Increase(cells[i], data).Err?
    ensures r.Ok? && Distinct(Accepted(cells, data)) ==> BottomOf(r.value, Accepted(cells, data), Capacity)
  {
    r := ScanColumn(Smallest, cells, data);
    ScanFails(Smallest, cells, data);
    if r.Ok? {
      ScanBound(Smallest, cells, data);
      if Distinct(Accepted(cells, data)) {
        BottomHundred(cells, data);
      }
    }
  }
}
