/** tools/node.py: a singly linked list node holding a string. */
module LinkedNodes {

  class Node {
    var val: string
    /** Reassigned by SyncedList while it links the chain together. */
    var next: Node?

    /** `Node(val, init_next=None)`. */
    constructor (val: string, initNext: Node? := null)
      ensures this.val == val && this.next == initNext
    {
      this.val := val;
      this.next := initNext;
    }
  }

  /** `head` starts a chain through the nodes of `spine`, in order, holding `values` and ending in `None`. */
  ghost predicate Linked(head: Node?, spine: seq<Node>, values: seq<string>)
    reads spine
  {
    && |spine| == |values|
    && head == (if spine == [] then null else spine[0])
    && (forall k :: 0 <= k < |spine| ==> spine[k].val == values[k])
    && (forall k :: 0 <= k < |spine| - 1 ==> spine[k].next == spine[k + 1])
    && (spine != [] ==> spine[|spine| - 1].next == null)
  }

  /**
   * The part of `SyncedList.__init__` that links one fresh node per value,
   * in order: `spine` is the chain from `head`, ending in `None`.
   */
  method Chain(init: seq<string>) returns (head: Node?, ghost spine: seq<Node>)
    ensures Linked(head, spine, init)
  {
    if |init| == 0 {
      return null, [];
    }
    var first := new Node(init[0]);
    var last := first;
    spine := [first];
    for i := 1 to |init|
      invariant |spine| == i && spine[0] == first && last == spine[i - 1]
      invariant forall k :: 0 <= k < i ==> spine[k].val == init[k]
      invariant forall k :: 0 <= k < i - 1 ==> spine[k].next == spine[k + 1]
      invariant fresh(last) && last.next == null
    {
      var node := new Node(init[i]);
      last.next := node;
      last := node;
      spine := spine + [node];
    }
    head := first;
  }
}
