/**
 * tools/synced_list.py: the pop-only work queue shared by the worker threads.
 * The lock is dropped: every call is modelled as one atomic step.
 */
module SyncedLists {
  import opened Wrappers
  import opened LinkedNodes

  /** `sep.join(values)`. */
  function Join(values: seq<string>, sep: string): string {
    if |values| == 0 then ""
    else if |values| == 1 then values[0]
    else Join(values[..|values| - 1], sep) + sep + values[|values| - 1]
  }

  /** What `__str__` has built after visiting the first `i` nodes of a chain holding `values`. */
  function RenderedPrefix(values: seq<string>, i: nat): string
    requires i <= |values|
  {
    if i == 0 then "" else if i < |values| then Join(values[..i], ", ") + ", " else Join(values, ", ")
  }

  /** Appending one more node's text to the rendered prefix. */
  lemma RenderedPrefixStep(values: seq<string>, i: nat)
    requires i < |values|
    ensures RenderedPrefix(values, i + 1)
         == RenderedPrefix(values, i) + values[i] + (if i + 1 < |values| then ", " else "")
  {
    assert values[..i + 1][..i] == values[..i];
    if i + 1 == |values| {
      assert values[..i + 1] == values;
    }
  }

  class SyncedList {
    /** `_head`: the first node not yet popped, `null` once the list is exhausted. */
    var head: Node?
    /** Whether `_head` was ever assigned: the constructor assigns it only for a non-empty `init`. */
    var hasHead: bool
    /** The nodes still in the chain, in order. */
    ghost var Spine: seq<Node>
    /** The values still in the list, in order. */
    ghost var Contents: seq<string>
    /** The values already handed out by `Pop`, in order. */
    ghost var Delivered: seq<string>
    /** The `init` the list was built from. */
    ghost const Initial: seq<string>

    ghost predicate Valid()
      reads this, Spine
    {
      && Linked(head, Spine, Contents)
      && (!hasHead ==> Spine == [] && head == null)
      && Delivered + Contents == Initial
    }

    /** `SyncedList(init)`: a chain of fresh nodes holding `init` in order. */
    constructor (init: seq<string>)
      ensures Valid()
      ensures Contents == init && Initial == init && Delivered == []
      ensures hasHead == (|init| >= 1)
    {
      var first: Node?;
      ghost var spine: seq<Node>;
      first, spine := Chain(init);
      Initial := init;
      Delivered := [];
      Contents := init;
      head := first;
      hasHead := |init| >= 1;
      Spine := spine;
    }

    /**
     * `pop()`: hands out the first value and unlinks its node; `None` once exhausted.
     * A list built from an empty `init` has no `_head`, so popping it raises.
     */
    method Pop() returns (r: Result<Option<string>>)
      requires Valid()
      modifies this
      ensures Valid() && hasHead == old(hasHead)
      ensures !hasHead ==> r == Err(AttributeError) && Contents == old(Contents) && Delivered == old(Delivered)
      ensures hasHead && old(Contents) == [] ==> r == Ok(None) && Contents == [] && Delivered == old(Delivered)
      ensures hasHead && old(Contents) != [] ==>
                r == Ok(Some(old(Contents)[0]))
                && Contents == old(Contents)[1..] && Spine == old(Spine)[1..]
                && Delivered == old(Delivered) + [old(Contents)[0]]
    {
      if !hasHead {
        return Err(AttributeError);
      }
      if head == null {
        return Ok(None);
      }
      var first := head;
      head := head.next;
      Spine := Spine[1..];
      Delivered := Delivered + [Contents[0]];
      Contents := Contents[1..];
      return Ok(Some(first.val));
    }

    /** `__str__()`: the remaining values as `[a, b, c]`; the list is not changed. */
    method ToString() returns (r: Result<string>)
      requires Valid()
      ensures r == if hasHead then Ok("[" + Join(Contents, ", ") + "]") else Err(AttributeError)
    {
      if !hasHead {
        return Err(AttributeError);
      }
      var rep := "[";
      var node := head;
      ghost var i := 0;
      while node != null
        invariant 0 <= i <= |Spine|
        invariant node == if i < |Spine| then Spine[i] else null
        invariant rep == "[" + RenderedPrefix(Contents, i)
        decreases |Spine| - i
      {
        RenderedPrefixStep(Contents, i);
        if node.next == null {
          rep := rep + node.val;
        } else {
          rep := rep + node.val + ", ";
        }
        node := node.next;
        i := i + 1;
      }
      rep := rep + "]";
      return Ok(rep);
    }
  }
}
