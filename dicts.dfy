/**
 * The Python dicts the top-x scripts keep, from symbol to relative change:
 * their items in insertion order, each key once. Assigning to a present key
 * keeps its place, a new key goes last, and `pop(key)` takes one item out.
 */
module Dicts {

  /** A dict from symbol to value, as its items in insertion order. */
  type Dict = seq<(string, real)>

  /** `list(d.keys())`. */
  function Keys(d: Dict): (k: seq<string>)
    ensures |k| == |d| && forall i :: 0 <= i < |d| ==> k[i] == d[i].0
  {
    seq(|d|, i requires 0 <= i < |d| => d[i].0)
  }

  /** No key occurs twice. */
  predicate Distinct(d: Dict) {
    forall i, j :: 0 <= i < j < |d| ==> d[i].0 != d[j].0
  }

  /** The key of an item of `d` is a key of `d`. */
  lemma KeyOf(d: Dict, e: (string, real))
    requires e in d
    ensures e.0 in Keys(d)
  {
    var i :| 0 <= i < |d| && d[i] == e;
    assert Keys(d)[i] == e.0;
  }

  /** The position of `key` in `d`. */
  function IndexOf(d: Dict, key: string): (i: nat)
    requires key in Keys(d)
    ensures i < |d| && d[i].0 == key && forall j :: 0 <= j < i ==> d[j].0 != key
  {
    if d[0].0 == key then 0
    else
      assert Keys(d)[1..] == Keys(d[1..]);
      1 + IndexOf(d[1..], key)
  }

  /** `d[key] = value`: a present key keeps its place, a new one goes last. */
  function Set(d: Dict, key: string, value: real): (r: Dict)
    ensures |r| == if key in Keys(d) then |d| else |d| + 1
    ensures (key, value) in r
    ensures forall e :: e in r ==> e == (key, value) || e in d
    ensures forall e :: e in d && e.0 != key ==> e in r
    ensures key !in Keys(d) ==> r == d + [(key, value)]
    ensures Distinct(d) ==> Distinct(r)
  {
    if key in Keys(d) then
      var i := IndexOf(d, key);
      var r := d[i := (key, value)];
      assert r[i] == (key, value);
      assert forall e :: e in d && e.0 != key ==> e in r by {
        forall e | e in d && e.0 != key ensures e in r {
          var j :| 0 <= j < |d| && d[j] == e;
          assert r[j] == e;
        }
      }
      r
    else
      assert forall j :: 0 <= j < |d| ==> d[j].0 != key by {
        forall j | 0 <= j < |d| ensures d[j].0 != key {
          assert Keys(d)[j] == d[j].0;
        }
      }
      d + [(key, value)]
  }

  /** `d.pop(key)` for a present key: its item is taken out, the others keep their order. */
  function Pop(d: Dict, key: string): (r: Dict)
    requires key in Keys(d)
    ensures |r| == |d| - 1
    ensures forall j :: 0 <= j < |r| ==> r[j] == if j < IndexOf(d, key) then d[j] else d[j + 1]
  {
    var i := IndexOf(d, key);
    d[..i] + d[i + 1..]
  }

  /** Popping adds no item. */
  lemma PopSubset(d: Dict, key: string)
    requires key in Keys(d)
    ensures forall e :: e in Pop(d, key) ==> e in d
  {
    var i := IndexOf(d, key);
    var r := Pop(d, key);
    forall e | e in r ensures e in d {
      var j :| 0 <= j < |r| && r[j] == e;
      var k := if j < i then j else j + 1;
      assert d[k] == e;
    }
  }

  /** Popping keeps every item with another key. */
  lemma PopKeeps(d: Dict, key: string)
    requires key in Keys(d)
    ensures forall e :: e in d && e.0 != key ==> e in Pop(d, key)
  {
    var i := IndexOf(d, key);
    var r := Pop(d, key);
    forall e | e in d && e.0 != key ensures e in r {
      var j :| 0 <= j < |d| && d[j] == e;
      var k := if j < i then j else j - 1;
      assert r[k] == e;
    }
  }

  /** Popping adds no key. */
  lemma PopKeys(d: Dict, key: string, other: string)
    requires key in Keys(d)
    ensures other !in Keys(d) ==> other !in Keys(Pop(d, key))
  {
    var i := IndexOf(d, key);
    var r := Pop(d, key);
    if other !in Keys(d) {
      forall j | 0 <= j < |r| ensures Keys(r)[j] != other {
        assert r[j] == d[if j < i then j else j + 1];
        assert Keys(d)[if j < i then j else j + 1] != other;
      }
    }
  }

  /** Popping from a dict whose keys are distinct keeps them distinct and leaves the key absent. */
  lemma PopDistinct(d: Dict, key: string)
    requires key in Keys(d)
    ensures Distinct(d) ==> Distinct(Pop(d, key)) && key !in Keys(Pop(d, key))
  {
    var i := IndexOf(d, key);
    var r := Pop(d, key);
    if Distinct(d) {
      forall j, k | 0 <= j < k < |r| ensures r[j].0 != r[k].0 {
        var dj := if j < i then j else j + 1;
        var dk := if k < i then k else k + 1;
        assert r[j] == d[dj] && r[k] == d[dk] && dj < dk;
      }
      forall j | 0 <= j < |r| ensures Keys(r)[j] != key {
        var dj := if j < i then j else j + 1;
        assert r[j] == d[dj] && dj != i;
      }
    }
  }

  /** The position `min` ends at in `for key in d: if d[key] < d[min]: min = key`: the first smallest value. */
  function FirstMin(d: Dict): (i: nat)
    requires |d| > 0
    ensures i < |d|
    ensures forall j :: 0 <= j < |d| ==> d[i].1 <= d[j].1
    ensures forall j :: 0 <= j < i ==> d[i].1 < d[j].1
  {
    if |d| == 1 then 0
    else
      var m := FirstMin(d[..|d| - 1]);
      assert d[..|d| - 1][m] == d[m];
      if d[|d| - 1].1 < d[m].1 then |d| - 1 else m
  }

  /** The position `max` ends at in `for key in d: if d[key] > d[max]: max = key`: the first largest value. */
  function FirstMax(d: Dict): (i: nat)
    requires |d| > 0
    ensures i < |d|
    ensures forall j :: 0 <= j < |d| ==> d[i].1 >= d[j].1
    ensures forall j :: 0 <= j < i ==> d[i].1 > d[j].1
  {
    if |d| == 1 then 0
    else
      var m := FirstMax(d[..|d| - 1]);
      assert d[..|d| - 1][m] == d[m];
      if d[|d| - 1].1 > d[m].1 then |d| - 1 else m
  }

  /** `min = list(d.keys())[0]`, then the search loop over the keys. */
  method FindFirstMin(d: Dict) returns (min: nat)
    requires |d| > 0
    ensures min == FirstMin(d)
  {
    min := 0;
    for k := 0 to |d|
      invariant min < |d| && (k == 0 ==> min == 0) && (k > 0 ==> min == FirstMin(d[..k]))
    {
      assert k > 0 ==> d[..k + 1][..k] == d[..k];
      if d[k].1 < d[min].1 {
        min := k;
      }
    }
    assert d[..|d|] == d;
  }

  /** `max = list(d.keys())[0]`, then the search loop over the keys. */
  method FindFirstMax(d: Dict) returns (max: nat)
    requires |d| > 0
    ensures max == FirstMax(d)
  {
    max := 0;
    for k := 0 to |d|
      invariant max < |d| && (k == 0 ==> max == 0) && (k > 0 ==> max == FirstMax(d[..k]))
    {
      assert k > 0 ==> d[..k + 1][..k] == d[..k];
      if d[k].1 > d[max].1 {
        max := k;
      }
    }
    assert d[..|d|] == d;
  }

  /** A full "largest" dict meets `value`: the first smallest item gives way if `value` is strictly larger. */
  function KeepLarger(d: Dict, key: string, value: real): (r: Dict)
    requires |d| > 0
    ensures |r| <= |d| && (key !in Keys(d) ==> |r| == |d|)
    ensures Distinct(d) ==> Distinct(r)
  {
    var m := FirstMin(d);
    assert Keys(d)[m] == d[m].0;
    PopKeys(d, d[m].0, key);
    PopDistinct(d, d[m].0);
    if d[m].1 < value then Set(Pop(d, d[m].0), key, value) else d
  }

  /** A full "smallest" dict meets `value`: the first largest item gives way if `value` is strictly smaller. */
  function KeepSmaller(d: Dict, key: string, value: real): (r: Dict)
    requires |d| > 0
    ensures |r| <= |d| && (key !in Keys(d) ==> |r| == |d|)
    ensures Distinct(d) ==> Distinct(r)
  {
    var m := FirstMax(d);
    assert Keys(d)[m] == d[m].0;
    PopKeys(d, d[m].0, key);
    PopDistinct(d, d[m].0);
    if d[m].1 > value then Set(Pop(d, d[m].0), key, value) else d
  }

  /** The search for the first smallest key, then `d.pop(min)` and `d[key] = value` when `value` is larger. */
  method ReplaceSmallest(d: Dict, key: string, value: real) returns (r: Dict)
    requires |d| > 0
    ensures r == KeepLarger(d, key, value)
  {
    var min := FindFirstMin(d);
    r := d;
    if d[min].1 < value {
      r := Set(Pop(d, d[min].0), key, value);
    }
  }

  /** The search for the first largest key, then `d.pop(max)` and `d[key] = value` when `value` is smaller. */
  method ReplaceLargest(d: Dict, key: string, value: real) returns (r: Dict)
    requires |d| > 0
    ensures r == KeepSmaller(d, key, value)
  {
    var max := FindFirstMax(d);
    r := d;
    if d[max].1 > value {
      r := Set(Pop(d, d[max].0), key, value);
    }
  }

  /**
   * `d` holds items of `pool`, at most `cap` of them, each key once; any
   * item of `pool` left out is no larger than every item kept, and items
   * are left out only once `d` is full.
   */
  ghost predicate TopOf(d: Dict, pool: Dict, cap: nat) {
    && Distinct(d) && |d| <= cap
    && (forall e :: e in d ==> e in pool)
    && (forall p :: p in pool ==> p in d || (|d| == cap && forall e :: e in d ==> p.1 <= e.1))
  }

  /** Like `TopOf`, for the smallest items: any item left out is no smaller than every item kept. */
  ghost predicate BottomOf(d: Dict, pool: Dict, cap: nat) {
    && Distinct(d) && |d| <= cap
    && (forall e :: e in d ==> e in pool)
    && (forall p :: p in pool ==> p in d || (|d| == cap && forall e :: e in d ==> p.1 >= e.1))
  }

  /** Nothing is kept from nothing. */
  lemma EmptyTop(cap: nat)
    ensures TopOf([], [], cap) && BottomOf([], [], cap)
  {
  }

  /** A key new to the pool is new to every dict drawn from it. */
  lemma FreshKey(d: Dict, pool: Dict, key: string)
    requires (forall e :: e in d ==> e in pool) && key !in Keys(pool)
    ensures key !in Keys(d)
  {
    if key in Keys(d) {
      var i := IndexOf(d, key);
      KeyOf(pool, d[i]);
    }
  }

  /** Below capacity, a new symbol is simply added. */
  lemma InsertTop(d: Dict, pool: Dict, cap: nat, key: string, value: real)
    requires TopOf(d, pool, cap) && |d| < cap && key !in Keys(pool)
    ensures TopOf(Set(d, key, value), pool + [(key, value)], cap)
  {
    FreshKey(d, pool, key);
    var r := Set(d, key, value);
    forall p | p in pool + [(key, value)] ensures p in r {
      if p != (key, value) {
        KeyOf(pool, p);
      }
    }
  }

  /** Below capacity, a new symbol is simply added. */
  lemma InsertBottom(d: Dict, pool: Dict, cap: nat, key: string, value: real)
    requires BottomOf(d, pool, cap) && |d| < cap && key !in Keys(pool)
    ensures BottomOf(Set(d, key, value), pool + [(key, value)], cap)
  {
    FreshKey(d, pool, key);
    var r := Set(d, key, value);
    forall p | p in pool + [(key, value)] ensures p in r {
      if p != (key, value) {
        KeyOf(pool, p);
      }
    }
  }

  /** At capacity, replacing the smallest item when the new value is larger keeps the largest ones. */
  lemma KeepLargerTop(d: Dict, pool: Dict, cap: nat, key: string, value: real)
    requires TopOf(d, pool, cap) && |d| == cap && cap > 0 && key !in Keys(pool)
    ensures TopOf(KeepLarger(d, key, value), pool + [(key, value)], cap)
  {
    FreshKey(d, pool, key);
    var m := FirstMin(d);
    var r := KeepLarger(d, key, value);
    if d[m].1 < value {
      PopSubset(d, d[m].0);
      PopKeeps(d, d[m].0);
      PopDistinct(d, d[m].0);
      var rest := Pop(d, d[m].0);
      assert r == Set(rest, key, value);
      forall e | e in r ensures e.1 >= d[m].1 {
      }
      forall p | p in pool + [(key, value)] && p !in r
        ensures forall e :: e in r ==> p.1 <= e.1
      {
        if p in d {
          var j :| 0 <= j < |d| && d[j] == p;
          assert p.0 == d[m].0;
          assert j == m by {
            assert d[j].0 == d[m].0;
          }
        }
      }
    }
  }

  /** At capacity, replacing the largest item when the new value is smaller keeps the smallest ones. */
  lemma KeepSmallerBottom(d: Dict, pool: Dict, cap: nat, key: string, value: real)
    requires BottomOf(d, pool, cap) && |d| == cap && cap > 0 && key !in Keys(pool)
    ensures BottomOf(KeepSmaller(d, key, value), pool + [(key, value)], cap)
  {
    FreshKey(d, pool, key);
    var m := FirstMax(d);
    var r := KeepSmaller(d, key, value);
    if d[m].1 > value {
      PopSubset(d, d[m].0);
      PopKeeps(d, d[m].0);
      PopDistinct(d, d[m].0);
      var rest := Pop(d, d[m].0);
      assert r == Set(rest, key, value);
      forall e | e in r ensures e.1 <= d[m].1 {
      }
      forall p | p in pool + [(key, value)] && p !in r
        ensures forall e :: e in r ==> p.1 >= e.1
      {
        if p in d {
          var j :| 0 <= j < |d| && d[j] == p;
          assert p.0 == d[m].0;
          assert j == m by {
            assert d[j].0 == d[m].0;
          }
        }
      }
    }
  }
}
