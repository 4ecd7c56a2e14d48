/**
 * synced_list.py: the older copy of the work queue. It behaves like the one in
 * tools/synced_list.py, except that a successful `pop` prints two trace lines
 * while it holds the lock; `Log` is what it has printed.
 */
module LegacySyncedLists {
  import opened Wrappers
  import opened LinkedNodes
  import SyncedLists

  /** The trace a successful `pop` prints, in order. */
  const PopTrace: seq<string> := ["Entering lock", "Exiting lock"]

  /** What `n` successful pops have printed. */
  function Trace(n: nat): seq<string> {
    if n == 0 then [] else Trace(n - 1) + PopTrace
  }

  /** Each successful pop prints its two lines together, entering before exiting. */
  lemma {:induction false} TraceShape(n: nat)
    ensures |Trace(n)| == 2 * n
    ensures forall k :: 0 <= k < n ==> Trace(n)[2 * k] == "Entering lock" && Trace(n)[2 * k + 1] == "Exiting lock"
  {
    if n > 0 {
      TraceShape(n - 1);
    }
  }

  class SyncedList {
    var head: Node?
    var hasHead: bool
    /** The lines `print` has written, oldest first. */
    var log: seq<string>
    ghost var Spine: seq<Node>
    ghost var Contents: seq<string>
    ghost var Delivered: seq<string>
    ghost const Initial: seq<string>

    ghost predicate Valid()
      reads this, Spine
    {
      && Linked(head, Spine, Contents)
      && (!hasHead ==> Spine == [] && head == null)
      && Delivered + Contents == Initial
      && log == Trace(|Delivered|)
    }

    /** `SyncedList(init)`: a chain of fresh nodes holding `init` in order; nothing printed yet. */
    constructor (init: seq<string>)
      ensures Valid()
      ensures Contents == init && Initial == init && Delivered == [] && log == []
      ensures hasHead == (|init| >= 1)
    {
      var first: Node?;
      ghost var spine: seq<Node>;
      first, spine := Chain(init);
      assert Trace(0) == [];
      Initial := init;
      Delivered := [];
      Contents := init;
      log := [];
      head := first;
      hasHead := |init| >= 1;
      Spine := spine;
    }

    /** `pop()`: as in tools/synced_list.py, printing the lock trace only when a value is handed out. */
    method Pop() returns (r: Result<Option<string>>)
      requires Valid()
      modifies this
      ensures Valid() && hasHead == old(hasHead)
      ensures !hasHead ==> r == Err(AttributeError) && Contents == old(Contents) && log == old(log)
      ensures hasHead && old(Contents) == [] ==> r == Ok(None) && Contents == [] && log == old(log)
      ensures hasHead && old(Contents) != [] ==>
                r == Ok(Some(old(Contents)[0]))
                && Contents == old(Contents)[1..] && Spine == old(Spine)[1..]
                && Delivered == old(Delivered) + [old(Contents)[0]]
                && log == old(log) + PopTrace
    {
      if !hasHead {
        return Err(AttributeError);
      }
      if head == null {
        return Ok(None);
      }
      log := log + ["Entering lock"];
      var first := head;
      head := head.next;
      Spine := Spine[1..];
      Delivered := Delivered + [Contents[0]];
      Contents := Contents[1..];
      log := log + ["Exiting lock"];
      return Ok(Some(first.val));
    }

    /** `__str__()`: the remaining values as `[a, b, c]`; nothing changes. */
    method ToString() returns (r: Result<string>)
      requires Valid()
      ensures r == if hasHead then Ok("[" + SyncedLists.Join(Contents, ", ") + "]") else Err(AttributeError)
    {
      if !hasHead {
        return Err(AttributeError);
      }
      var rep := "[";
      var node := head;
      ghost var i := 0;
      while node != null
        invariant 0 <= i <= |Spine|
        invariant node == if i < |Spine| then Spine[i] else null
        invariant rep == "[" + SyncedLists.RenderedPrefix(Contents, i)
        decreases |Spine| - i
      {
        SyncedLists.RenderedPrefixStep(Contents, i);
        if node.next == null {
          rep := rep + node.val;
        } else {
          rep := rep + node.val + ", ";
        }
        node := node.next;
        i := i + 1;
      }
      rep := rep + "]";
      return Ok(rep);
    }
  }
}
