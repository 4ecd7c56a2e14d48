/**
 * stock-appreciation-analysis.py: `get_max_and_min_increase` keeps, for the
 * symbols of a column, the x largest and the x smallest relative increases
 * between the first and the last close of a fetched range. `data` stands
 * for `get_data` on that range: a symbol's closes, or `None` when the fetch
 * raised (which the script catches and skips).
 */
module StockAppreciation {
  import opened Wrappers
  import opened Text
  import opened Dicts

  /**
   * The symbol and its increase `(last - first) / first`, or `None` when the
   * script skips the cell: not a string, not alphabetic, no data, or fewer
   * than two closes. A first close of zero raises ZeroDivisionError.
   */
  function Increase(cell: Cell, data: string -> Option<seq<real>>): (r: Result<Option<(string, real)>>)
    ensures r.Ok? && r.value.Some? ==> Usable(cell) && r.value.value.0 == cell.text
    ensures r.Ok? && r.value.Some? ==>
      data(cell.text).Some? && |data(cell.text).value| >= 2 && data(cell.text).value[0] != 0.0
    ensures r.Err? <==> Usable(cell) && data(cell.text).Some? && |data(cell.text).value| >= 2
                        && data(cell.text).value[0] == 0.0
  {
    if !Usable(cell) then Ok(None)
    else match data(cell.text)
      case None => Ok(None)
      case Some(closes) =>
        if |closes| < 2 then Ok(None)
        else if closes[0] == 0.0 then Err(ZeroDivisionError)
        else Ok(Some((cell.text, (closes[|closes| - 1] - closes[0]) / closes[0])))
  }

  /**
   * An accepted symbol meets the two dicts: both take it while `neg` has
   * fewer than x items; after that `pos` keeps it only above its first
   * smallest value and `neg` only below its first largest one. Reading the
   * first key of an empty dict raises IndexError.
   */
  function Update(x: int, pos: Dict, neg: Dict, symbol: string, inc: real): Result<(Dict, Dict)> {
    if |neg| < x then Ok((Set(pos, symbol, inc), Set(neg, symbol, inc)))
    else if |neg| == 0 || |pos| == 0 then Err(IndexError)
    else Ok((KeepLarger(pos, symbol, inc), KeepSmaller(neg, symbol, inc)))
  }

  /** The body of the loop over the column for one cell, with the dicts at `maps`. */
  function Step(x: int, maps: (Dict, Dict), cell: Cell, data: string -> Option<seq<real>>): Result<(Dict, Dict)> {
    match Increase(cell, data)
    case Err(e) => Err(e)
    case Ok(None) => Ok(maps)
    case Ok(Some(item)) => Update(x, maps.0, maps.1, item.0, item.1)
  }

  /** `get_max_and_min_increase` over the symbol column `cells`: `(result_pos, result_neg)`, or the exception. */
  function MaxAndMin(cells: seq<Cell>, data: string -> Option<seq<real>>, x: int): Result<(Dict, Dict)> {
    if cells == [] then Ok(([], []))
    else
      match MaxAndMin(cells[..|cells| - 1], data, x)
      case Err(e) => Err(e)
      case Ok(maps) => Step(x, maps, cells[|cells| - 1], data)
  }

  /** The (symbol, increase) items of the cells the script does not skip, in order. */
  function Accepted(cells: seq<Cell>, data: string -> Option<seq<real>>): Dict {
    if cells == [] then []
    else
      Accepted(cells[..|cells| - 1], data)
      + match Increase(cells[|cells| - 1], data) case Ok(Some(item)) => [item] case _ => []
  }

  /** An exception ends the scan: once a prefix raised, the whole column raises the same. */
  lemma {:induction false} ErrorStays(cells: seq<Cell>, data: string -> Option<seq<real>>, x: int, i: nat)
    requires i <= |cells| && MaxAndMin(cells[..i], data, x).Err?
    ensures MaxAndMin(cells, data, x) == MaxAndMin(cells[..i], data, x)
    decreases |cells|
  {
    if i < |cells| {
      var init := cells[..|cells| - 1];
      assert init[..i] == cells[..i];
      ErrorStays(init, data, x, i);
    } else {
      assert cells[..i] == cells;
    }
  }

  /** Keys that are distinct in a dict are distinct in each of its prefixes, and a last key is new to them. */
  lemma DistinctLast(pool: Dict, item: (string, real))
    requires Distinct(pool + [item])
    ensures Distinct(pool) && item.0 !in Keys(pool)
  {
    assert forall i :: 0 <= i < |pool| ==> (pool + [item])[i] == pool[i];
    assert (pool + [item])[|pool|] == item;
    forall i | 0 <= i < |pool| ensures Keys(pool)[i] != item.0 {
      assert (pool + [item])[i].0 != (pool + [item])[|pool|].0;
    }
  }

  /** One accepted symbol new to the pool keeps the two dicts the largest and the smallest of the pool. */
  lemma UpdateKeepsExtremes(x: int, pos: Dict, neg: Dict, pool: Dict, symbol: string, inc: real)
    requires x >= 1 && TopOf(pos, pool, x) && BottomOf(neg, pool, x) && |pos| == |neg| && symbol !in Keys(pool)
    ensures Update(x, pos, neg, symbol, inc).Ok?
    ensures var (pos', neg') := Update(x, pos, neg, symbol, inc).value;
      && TopOf(pos', pool + [(symbol, inc)], x) && BottomOf(neg', pool + [(symbol, inc)], x) && |pos'| == |neg'|
  {
    FreshKey(pos, pool, symbol);
    FreshKey(neg, pool, symbol);
    if |neg| < x {
      InsertTop(pos, pool, x, symbol, inc);
      InsertBottom(neg, pool, x, symbol, inc);
    } else {
      KeepLargerTop(pos, pool, x, symbol, inc);
      KeepSmallerBottom(neg, pool, x, symbol, inc);
    }
  }

  /**
   * With distinct symbols and x at least 1, `result_pos` holds the x largest
   * increases and `result_neg` the x smallest (all of them while there are
   * fewer than x), with the same number of items, never more than x.
   */
  lemma {:induction false} MaxAndMinKeepExtremes(cells: seq<Cell>, data: string -> Option<seq<real>>, x: int)
    requires x >= 1 && Distinct(Accepted(cells, data)) && MaxAndMin(cells, data, x).Ok?
    ensures var (pos, neg) := MaxAndMin(cells, data, x).value;
      TopOf(pos, Accepted(cells, data), x) && BottomOf(neg, Accepted(cells, data), x) && |pos| == |neg|
  {
    if cells == [] {
      EmptyTop(x);
    } else {
      var init := cells[..|cells| - 1];
      var step := Increase(cells[|cells| - 1], data);
      assert MaxAndMin(init, data, x).Ok?;
      var maps := MaxAndMin(init, data, x).value;
      assert MaxAndMin(cells, data, x) == Step(x, maps, cells[|cells| - 1], data);
      if step.Ok? && step.value.Some? {
        var item := step.value.value;
        assert Accepted(cells, data) == Accepted(init, data) + [item];
        DistinctLast(Accepted(init, data), item);
        MaxAndMinKeepExtremes(init, data, x);
        UpdateKeepsExtremes(x, maps.0, maps.1, Accepted(init, data), item.0, item.1);
      } else {
        assert step.Ok? && step.value.None?;
        assert Accepted(cells, data) == Accepted(init, data) + [];
        assert Accepted(init, data) + [] == Accepted(init, data);
        MaxAndMinKeepExtremes(init, data, x);
      }
    }
  }

  /** With x of 0 or less the first accepted symbol raises IndexError: a scan that returns accepted nothing. */
  lemma {:induction false} NoRoomAcceptsNothing(cells: seq<Cell>, data: string -> Option<seq<real>>, x: int)
    requires x <= 0 && MaxAndMin(cells, data, x).Ok?
    ensures Accepted(cells, data) == [] && MaxAndMin(cells, data, x).value == ([], [])
  {
    if cells != [] {
      NoRoomAcceptsNothing(cells[..|cells| - 1], data, x);
    }
  }

  /** Closes for the column below: A rises by 100%, B by 200%, C by 300%. */
  function RepeatData(symbol: string): Option<seq<real>> {
    if symbol == "A" then Some([1.0, 2.0])
    else if symbol == "B" then Some([1.0, 3.0])
    else if symbol == "C" then Some([1.0, 4.0])
    else None
  }

  /** Scanning one more cell runs the loop body once more on the dicts so far. */
  lemma MaxAndMinSnoc(cells: seq<Cell>, cell: Cell, data: string -> Option<seq<real>>, x: int)
    ensures MaxAndMin(cells, data, x).Err? ==> MaxAndMin(cells + [cell], data, x) == MaxAndMin(cells, data, x)
    ensures MaxAndMin(cells, data, x).Ok? ==>
      MaxAndMin(cells + [cell], data, x) == Step(x, MaxAndMin(cells, data, x).value, cell, data)
  {
    assert (cells + [cell])[..|cells|] == cells;
  }

  /** The increases of the three symbols in `RepeatData`. */
  lemma RepeatIncreases()
    ensures Increase(Str("A"), RepeatData) == Ok(Some(("A", 1.0)))
    ensures Increase(Str("B"), RepeatData) == Ok(Some(("B", 2.0)))
    ensures Increase(Str("C"), RepeatData) == Ok(Some(("C", 3.0)))
  {
    assert IsAlpha("A") && IsAlpha("B") && IsAlpha("C") by {
      assert IsLetter('A') && IsLetter('B') && IsLetter('C');
    }
  }

  /** The first A and B go into both dicts, which have room for two. */
  lemma RepeatFirstSteps()
    ensures Step(2, ([], []), Str("A"), RepeatData) == Ok(([("A", 1.0)], [("A", 1.0)]))
    ensures Step(2, ([("A", 1.0)], [("A", 1.0)]), Str("B"), RepeatData)
         == Ok(([("A", 1.0), ("B", 2.0)], [("A", 1.0), ("B", 2.0)]))
  {
    RepeatIncreases();
    var one: Dict := [("A", 1.0)];
    assert Keys([]) == [] && Keys(one) == ["A"];
    assert Set([], "A", 1.0) == one;
    assert Set(one, "B", 2.0) == [("A", 1.0), ("B", 2.0)];
  }

  /** The second A leaves `result_pos` alone and replaces B, the largest, in `result_neg`. */
  lemma RepeatSecondA()
    ensures Step(2, ([("A", 1.0), ("B", 2.0)], [("A", 1.0), ("B", 2.0)]), Str("A"), RepeatData)
         == Ok(([("A", 1.0), ("B", 2.0)], [("A", 1.0)]))
  {
    RepeatIncreases();
    var one: Dict := [("A", 1.0)];
    var two: Dict := [("A", 1.0), ("B", 2.0)];
    assert Keys(one) == ["A"] && Keys(two) == ["A", "B"];
    assert FirstMin(two) == 0 && FirstMax(two) == 1 by {
      assert two[..1] == one;
    }
    assert IndexOf(two, "B") == 1 && Pop(two, "B") == one;
    assert KeepLarger(two, "A", 1.0) == two;
    assert KeepSmaller(two, "A", 1.0) == one;
  }

  /** `result_neg` now has room again, so C goes into both dicts. */
  lemma RepeatLastStep()
    ensures Step(2, ([("A", 1.0), ("B", 2.0)], [("A", 1.0)]), Str("C"), RepeatData)
         == Ok(([("A", 1.0), ("B", 2.0), ("C", 3.0)], [("A", 1.0), ("C", 3.0)]))
  {
    RepeatIncreases();
    assert Keys([("A", 1.0)]) == ["A"] && Keys([("A", 1.0), ("B", 2.0)]) == ["A", "B"];
    assert Set([("A", 1.0), ("B", 2.0)], "C", 3.0) == [("A", 1.0), ("B", 2.0), ("C", 3.0)];
    assert Set([("A", 1.0)], "C", 3.0) == [("A", 1.0), ("C", 3.0)];
  }

  /** The dicts after the first A and B. */
  lemma RepeatFirstTwo()
    ensures MaxAndMin([Str("A"), Str("B")], RepeatData, 2)
         == Ok(([("A", 1.0), ("B", 2.0)], [("A", 1.0), ("B", 2.0)]))
  {
    RepeatFirstSteps();
    MaxAndMinSnoc([], Str("A"), RepeatData, 2);
    assert [] + [Str("A")] == [Str("A")];
    MaxAndMinSnoc([Str("A")], Str("B"), RepeatData, 2);
    assert [Str("A")] + [Str("B")] == [Str("A"), Str("B")];
  }

  /** The dicts after the second A. */
  lemma RepeatFirstThree()
    ensures MaxAndMin([Str("A"), Str("B"), Str("A")], RepeatData, 2)
         == Ok(([("A", 1.0), ("B", 2.0)], [("A", 1.0)]))
  {
    RepeatFirstTwo();
    RepeatSecondA();
    MaxAndMinSnoc([Str("A"), Str("B")], Str("A"), RepeatData, 2);
    assert [Str("A"), Str("B")] + [Str("A")] == [Str("A"), Str("B"), Str("A")];
  }

  /**
   * A column that repeats a symbol can leave `result_pos` with more than x
   * items: with x = 2, the second A pushes B out of `result_neg` only, and
   * C then goes into both dicts.
   */
  lemma RepeatedSymbolOverfills()
    ensures MaxAndMin([Str("A"), Str("B"), Str("A"), Str("C")], RepeatData, 2)
         == Ok(([("A", 1.0), ("B", 2.0), ("C", 3.0)], [("A", 1.0), ("C", 3.0)]))
  {
    RepeatFirstThree();
    RepeatLastStep();
    MaxAndMinSnoc([Str("A"), Str("B"), Str("A")], Str("C"), RepeatData, 2);
    assert [Str("A"), Str("B"), Str("A")] + [Str("C")] == [Str("A"), Str("B"), Str("A"), Str("C")];
  }

  /** The body of the loop over the column for one cell: skip it, raise, or update the two dicts. */
  method Visit(cell: Cell, data: string -> Option<seq<real>>, x: int, pos: Dict, neg: Dict)
    returns (r: Result<(Dict, Dict)>)
    ensures r == Step(x, (pos, neg), cell, data)
  {
    if !Usable(cell) {
      return Ok((pos, neg));
    }
    var symbol := cell.text;
    var fetched := data(symbol);
    if fetched.None? || |fetched.value| < 2 {
      return Ok((pos, neg));
    }
    var closes := fetched.value;
    var yes, td := closes[0], closes[|closes| - 1];
    if yes == 0.0 {
      return Err(ZeroDivisionError);
    }
    var inc := (td - yes) / yes;
    assert Increase(cell, data) == Ok(Some((symbol, inc)));
    r := Place(x, pos, neg, symbol, inc);
  }

  /** The part of the loop body that puts an accepted symbol and its increase into the two dicts. */
  method Place(x: int, pos: Dict, neg: Dict, symbol: string, inc: real) returns (r: Result<(Dict, Dict)>)
    ensures r == Update(x, pos, neg, symbol, inc)
  {
    if |neg| < x {
      return Ok((Set(pos, symbol, inc), Set(neg, symbol, inc)));
    }
    if |neg| == 0 || |pos| == 0 {
      return Err(IndexError);
    }
    var pos' := ReplaceSmallest(pos, symbol, inc);
    var neg' := ReplaceLargest(neg, symbol, inc);
    return Ok((pos', neg'));
  }

  /** The loop over the column, ended by the first exception. */
  method ScanColumn(cells: seq<Cell>, data: string -> Option<seq<real>>, x: int)
    returns (r: Result<(Dict, Dict)>)
    ensures r == MaxAndMin(cells, data, x)
  {
    var pos: Dict := [];
    var neg: Dict := [];
    for i := 0 to |cells|
      invariant MaxAndMin(cells[..i], data, x) == Ok((pos, neg))
    {
      assert cells[..i + 1][..i] == cells[..i] && cells[..i + 1][i] == cells[i];
      var next := Visit(cells[i], data, x, pos, neg);
      if next.Err? {
        ErrorStays(cells, data, x, i + 1);
        return next;
      }
      pos, neg := next.value.0, next.value.1;
    }
    assert cells[..|cells|] == cells;
    return Ok((pos, neg));
  }

  /**
   * `get_max_and_min_increase(query_file, start, end, x)` over the symbol
   * column `cells`: for distinct symbols and x at least 1, `result_pos` holds
   * the x largest increases and `result_neg` the x smallest; with x of 0 or
   * less, a column from which any symbol is used raises IndexError.
   */
  method GetMaxAndMinIncrease(cells: seq<Cell>, data: string -> Option<seq<real>>, x: int)
    returns (r: Result<(Dict, Dict)>)
    ensures r == MaxAndMin(cells, data, x)
    ensures r.Ok? && x >= 1 && Distinct(Accepted(cells, data)) ==>
      TopOf(r.value.0, Accepted(cells, data), x) && BottomOf(r.value.1, Accepted(cells, data), x)
    ensures r.Ok? && x <= 0 ==> Accepted(cells, data) == [] && r.value == ([], [])
  {
    r := ScanColumn(cells, data, x);
    if r.Ok? {
      if x >= 1 && Distinct(Accepted(cells, data)) {
        MaxAndMinKeepExtremes(cells, data, x);
      } else if x <= 0 {
        NoRoomAcceptsNothing(cells, data, x);
      }
    }
  }
}
