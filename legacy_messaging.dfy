/**
 * messaging.py: the older copy of the messaging classes. `Message` has no
 * `reset`; `Listener.send` prints a message's lines as one block.
 */
module LegacyMessaging {
  import opened Messaging

  class Message {
    var lines: seq<string>

    /** `Message()`: no lines. */
    constructor ()
      ensures lines == []
    {
      lines := [];
    }

    /** `add_line(line)`: appends `line`. */
    method AddLine(line: string)
      modifies this
      ensures lines == old(lines) + [line]
    {
      lines := lines + [line];
    }

    /** `get_lines()`: a copy of the lines. */
    method GetLines() returns (copy: seq<string>)
      ensures copy == lines
    {
      copy := lines;
    }
  }

  class Listener {
    var console: seq<string>
    ghost var Blocks: seq<seq<string>>

    ghost predicate Valid()
      reads this
    {
      console == Flatten(Blocks)
    }

    /** `Listener()`: nothing printed yet. */
    constructor ()
      ensures Valid() && console == [] && Blocks == []
    {
      console := [];
      Blocks := [];
    }

    /** `send(message)`: prints the message's lines, in order, as one block. */
    method Send(message: Message)
      requires Valid()
      modifies this
      ensures Valid()
      ensures console == old(console) + message.lines
      ensures Blocks == old(Blocks) + [message.lines]
    {
      var lines := message.GetLines();
      for i := 0 to |lines|
        invariant console == old(console) + lines[..i] && Blocks == old(Blocks)
      {
        console := console + [lines[i]];
      }
      assert lines[..|lines|] == lines;
      FlattenAppend(Blocks, lines);
      Blocks := Blocks + [lines];
    }
  }
}
