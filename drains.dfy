/**
 * The worker loop shared by the screening scripts: pop a symbol from the
 * shared `SyncedList`, handle it (sending whole messages to a `Listener`),
 * and pop again until `pop` hands out `None`. An exception raised while a
 * symbol is handled ends the worker. Here only what one symbol produced is
 * described; each script says what its symbols produce.
 */
module Drains {
  import opened Wrappers
  import opened Messaging
  import opened SyncedLists

  /** What handling one symbol produced: the blocks it sent, in order, and the exception it ended with, if any. */
  datatype Work = Work(blocks: seq<seq<string>>, error: Option<Error>)

  /** Every block sent while handling `works`, symbol after symbol. */
  function SentBlocks(works: seq<Work>): seq<seq<string>> {
    if works == [] then [] else SentBlocks(works[..|works| - 1]) + works[|works| - 1].blocks
  }

  /** The position of the first symbol whose handling raised, or |works| when none did. */
  function FirstError(works: seq<Work>): (i: nat)
    ensures i <= |works|
    ensures i < |works| ==> works[i].error.Some?
    ensures forall j :: 0 <= j < i ==> works[j].error.None?
  {
    if works == [] then 0
    else if works[0].error.Some? then 0
    else 1 + FirstError(works[1..])
  }

  /** The first error is the one at `k` when every symbol before `k` went through. */
  lemma FirstErrorAt(works: seq<Work>, k: nat)
    requires k <= |works|
    requires forall j :: 0 <= j < k ==> works[j].error.None?
    requires k < |works| ==> works[k].error.Some?
    ensures FirstError(works) == k
  {
  }

  /** A worker that stops after the first `k + 1` symbols sent their blocks and no others. */
  lemma SentBlocksStep(works: seq<Work>, k: nat)
    requires k < |works|
    ensures SentBlocks(works[..k + 1]) == SentBlocks(works[..k]) + works[k].blocks
  {
    assert works[..k + 1][..k] == works[..k];
  }

  /** The listener after the `k`-th symbol holds the blocks of the first `k + 1` symbols. */
  lemma SentBlocksExtend(works: seq<Work>, k: nat, before: seq<seq<string>>, middle: seq<seq<string>>,
                         after: seq<seq<string>>)
    requires k < |works|
    requires middle == before + SentBlocks(works[..k]) && after == middle + works[k].blocks
    ensures after == before + SentBlocks(works[..k + 1])
  {
    SentBlocksStep(works, k);
    assert (before + SentBlocks(works[..k])) + works[k].blocks == before + (SentBlocks(works[..k]) + works[k].blocks);
  }

  /**
   * What a worker that started on the queue `queue` has done once it stops
   * with `r`: the remaining queue is `rest` and the listener's blocks went
   * from `before` to `after`. It either got through every symbol, or it
   * stopped right after the first symbol that raised, with that exception.
   */
  ghost predicate Drained<T>(queue: seq<string>, works: seq<Work>, r: Result<T>, rest: seq<string>,
                             before: seq<seq<string>>, after: seq<seq<string>>)
    requires |works| == |queue|
  {
    var k := FirstError(works);
    && (r.Ok? <==> k == |works|)
    && (r.Ok? ==> rest == [] && after == before + SentBlocks(works))
    && (r.Err? ==> r.error == works[k].error.value && rest == queue[k + 1..]
                   && after == before + SentBlocks(works[..k + 1]))
  }

  /** A worker that has handled the first `k` symbols without an exception, the listener going from `before` to `now`. */
  ghost predicate Progress(works: seq<Work>, k: nat, before: seq<seq<string>>, now: seq<seq<string>>) {
    k <= |works| && now == before + SentBlocks(works[..k]) && forall j :: 0 <= j < k ==> works[j].error.None?
  }

  /** No symbol handled yet. */
  lemma ProgressStart(works: seq<Work>, before: seq<seq<string>>)
    ensures Progress(works, 0, before, before)
  {
    assert works[..0] == [];
  }

  /** One more symbol handled without an exception. */
  lemma ProgressStep(works: seq<Work>, k: nat, before: seq<seq<string>>, middle: seq<seq<string>>,
                     after: seq<seq<string>>)
    requires Progress(works, k, before, middle) && k < |works|
    requires after == middle + works[k].blocks && works[k].error.None?
    ensures Progress(works, k + 1, before, after)
  {
    SentBlocksExtend(works, k, before, middle, after);
  }

  /** A worker that handled every symbol without an exception and found the queue empty is done. */
  lemma DrainedAll<T>(queue: seq<string>, works: seq<Work>, r: Result<T>, before: seq<seq<string>>,
                      after: seq<seq<string>>)
    requires |works| == |queue| && r.Ok? && Progress(works, |queue|, before, after)
    ensures Drained(queue, works, r, [], before, after)
  {
    FirstErrorAt(works, |queue|);
    assert works[..|queue|] == works;
  }

  /** A worker whose `k`-th symbol raised, after `k` that did not, stops with that exception. */
  lemma DrainedAt<T>(queue: seq<string>, works: seq<Work>, r: Result<T>, k: nat, before: seq<seq<string>>,
                     middle: seq<seq<string>>, after: seq<seq<string>>)
    requires |works| == |queue| && k < |queue| && r.Err? && Progress(works, k, before, middle)
    requires works[k].error == Some(r.error) && after == middle + works[k].blocks
    ensures Drained(queue, works, r, queue[k + 1..], before, after)
  {
    FirstErrorAt(works, k);
    SentBlocksExtend(works, k, before, middle, after);
  }

  /** Blocks sent in two steps, `middle` after the first, are the two parts in order. */
  lemma Appended<T>(before: seq<T>, first: seq<T>, second: seq<T>, middle: seq<T>, after: seq<T>)
    requires middle == before + first && after == middle + second
    ensures after == before + (first + second)
  {
  }

  /**
   * Where a worker stands in the queue `queue`: `popped` is what its last
   * pop gave back, the `k`-th symbol or `None`, and the list holds the
   * symbols after it.
   */
  ghost predicate Cursor(symbols: SyncedList, popped: Result<Option<string>>, queue: seq<string>, k: nat)
    reads symbols, symbols.Spine
  {
    && symbols.Valid() && symbols.hasHead && popped.Ok? && k <= |queue|
    && (popped.value.Some? <==> k < |queue|)
    && (popped.value.None? ==> symbols.Contents == [])
    && (popped.value.Some? ==> popped.value.value == queue[k] && symbols.Contents == queue[k + 1..])
  }

  /** The worker's `symbols.pop()` once it has handled the first `k` symbols of the queue `queue`. */
  method PopAt(symbols: SyncedList, ghost queue: seq<string>, ghost k: nat) returns (popped: Result<Option<string>>)
    requires symbols.Valid() && symbols.hasHead && k <= |queue| && symbols.Contents == queue[k..]
    modifies symbols
    ensures Cursor(symbols, popped, queue, k)
  {
    popped := symbols.Pop();
    if k < |queue| {
      assert queue[k..][1..] == queue[k + 1..];
    }
  }

  /** Builds a `Message` holding `lines` and sends it. */
  method SendBlock(listener: Listener, lines: seq<string>)
    requires listener.Valid()
    modifies listener
    ensures listener.Valid()
    ensures listener.Blocks == old(listener.Blocks) + [lines]
    ensures listener.console == old(listener.console) + lines
  {
    var msg := new Message();
    for i := 0 to |lines|
      invariant msg.lines == lines[..i]
      invariant listener.Valid() && listener.Blocks == old(listener.Blocks) && listener.console == old(listener.console)
    {
      msg.AddLine(lines[i]);
    }
    assert lines[..|lines|] == lines;
    listener.Send(msg);
  }
}
