/**
 * tools/messaging.py: workers build a `Message` of lines and hand it whole to a
 * `Listener`, which prints its lines as one block. The console is modelled as
 * the sequence of lines printed so far; the lock is dropped.
 */
module Messaging {

  /** The lines of `blocks`, block after block. */
  function Flatten(blocks: seq<seq<string>>): seq<string> {
    if blocks == [] then [] else blocks[0] + Flatten(blocks[1..])
  }

  /** Sending one more block extends the console by exactly that block. */
  lemma {:induction false} FlattenAppend(blocks: seq<seq<string>>, block: seq<string>)
    ensures Flatten(blocks + [block]) == Flatten(blocks) + block
  {
    if blocks != [] {
      assert (blocks + [block])[0] == blocks[0] && (blocks + [block])[1..] == blocks[1..] + [block];
      FlattenAppend(blocks[1..], block);
    }
  }

  /** The console of a run is its blocks in call order, whichever way the run is split. */
  lemma {:induction false} FlattenConcat(a: seq<seq<string>>, b: seq<seq<string>>)
    ensures Flatten(a + b) == Flatten(a) + Flatten(b)
  {
    if a != [] {
      assert (a + b)[0] == a[0] && (a + b)[1..] == a[1..] + b;
      FlattenConcat(a[1..], b);
    } else {
      assert a + b == b;
    }
  }

  class Message {
    /** `_lines`. */
    var lines: seq<string>

    /** `Message()`: no lines. */
    constructor ()
      ensures lines == []
    {
      lines := [];
    }

    /** `add_line(line)`: appends `line`, earlier lines untouched. */
    method AddLine(line: string)
      modifies this
      ensures lines == old(lines) + [line]
    {
      lines := lines + [line];
    }

    /** `get_lines()`: a copy of the lines; a `seq` is a value, so the caller cannot alter the message through it. */
    method GetLines() returns (copy: seq<string>)
      ensures copy == lines
    {
      copy := lines;
    }

    /** `reset()`: empties the message so it can be reused. */
    method Reset()
      modifies this
      ensures lines == []
    {
      lines := [];
    }
  }

  class Listener {
    /** Every line printed so far, oldest first. */
    var console: seq<string>
    /** The message contents sent so far, one block per `send`, in call order. */
    ghost var Blocks: seq<seq<string>>

    /** The console is exactly the sent blocks, each whole and in order. */
    ghost predicate Valid()
      reads this
    {
      console == Flatten(Blocks)
    }

    /** `Listener()`: nothing printed yet. */
    constructor ()
      ensures Valid() && console == [] && Blocks == []
    {
      console := [];
      Blocks := [];
    }

    /** `send(message)`: prints the message's lines, in order, as one contiguous block. */
    method Send(message: Message)
      requires Valid()
      modifies this
      ensures Valid()
      ensures console == old(console) + message.lines
      ensures Blocks == old(Blocks) + [message.lines]
    {
      var lines := message.GetLines();
      for i := 0 to |lines|
        invariant console == old(console) + lines[..i] && Blocks == old(Blocks)
      {
        console := console + [lines[i]];
      }
      assert lines[..|lines|] == lines;
      FlattenAppend(Blocks, lines);
      Blocks := Blocks + [lines];
    }
  }
}
