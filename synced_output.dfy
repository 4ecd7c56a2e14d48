/**
 * tools/synced_output.py: a file that several workers save messages to. The
 * file is modelled as the text written to it so far; the lock, the path and
 * `flush` are dropped.
 */
module SyncedOutput {
  import opened Messaging

  /** The text `save` writes for `lines`: each line followed by a newline. */
  function Rendered(lines: seq<string>): string {
    if lines == [] then "" else lines[0] + "\n" + Rendered(lines[1..])
  }

  /** Saving two groups of lines writes the two texts one after the other. */
  lemma {:induction false} RenderedAppend(a: seq<string>, b: seq<string>)
    ensures Rendered(a + b) == Rendered(a) + Rendered(b)
  {
    if a == [] {
      assert a + b == b;
    } else {
      assert (a + b)[0] == a[0] && (a + b)[1..] == a[1..] + b;
      RenderedAppend(a[1..], b);
    }
  }

  /** The number of characters of `s` before its first newline (all of `s` if it has none). */
  function LineLength(s: string): (k: nat)
    ensures k <= |s|
    ensures forall i :: 0 <= i < k ==> s[i] != '\n'
    ensures k < |s| ==> s[k] == '\n'
  {
    if s == "" || s[0] == '\n' then 0 else 1 + LineLength(s[1..])
  }

  /** Reads a file's text back as its lines (a final line without a newline counts too). */
  function SplitLines(s: string): seq<string>
    decreases |s|
  {
    if s == "" then []
    else
      var k := LineLength(s);
      [s[..k]] + SplitLines(s[if k < |s| then k + 1 else k..])
  }

  /** A line that holds no newline of its own. */
  predicate IsLine(line: string) {
    forall i :: 0 <= i < |line| ==> line[i] != '\n'
  }

  /** What `save` writes can be read back line for line, provided no line holds a newline. */
  lemma {:induction false} SplitRendered(lines: seq<string>)
    requires forall i :: 0 <= i < |lines| ==> IsLine(lines[i])
    ensures SplitLines(Rendered(lines)) == lines
  {
    if lines != [] {
      var s := Rendered(lines);
      var line := lines[0];
      assert s == line + "\n" + Rendered(lines[1..]);
      var k := LineLength(s);
      assert s[|line|] == '\n';
      assert k == |line|;
      assert s[..k] == line;
      assert s[k + 1..] == Rendered(lines[1..]);
      SplitRendered(lines[1..]);
    }
  }

  class SyncedFile {
    /** Everything written to the file since it was opened. */
    var content: string

    /** `SyncedFile(file)`: the file is opened with mode "w", so it starts empty. */
    constructor (file: string)
      ensures content == ""
    {
      content := "";
    }

    /** `save(msg)`: writes each of the message's lines, in order, followed by a newline. */
    method Save(msg: Message)
      modifies this
      ensures content == old(content) + Rendered(msg.lines)
    {
      var lines := msg.GetLines();
      for i := 0 to |lines|
        invariant content == old(content) + Rendered(lines[..i])
      {
        RenderedAppend(lines[..i], [lines[i]]);
        assert lines[..i + 1] == lines[..i] + [lines[i]];
        content := content + (lines[i] + "\n");
      }
      assert lines[..|lines|] == lines;
    }
  }
}
