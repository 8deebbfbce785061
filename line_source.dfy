/**
 * `String_line_provider` (src/beatmap_parser.cpp): hands out the lines of an
 * in-memory text one at a time. Each line keeps its terminating `'\n'`; the
 * last line may lack one.
 */
module LineSource {
  import opened Wrappers
  import opened Strings

  /** `content.find('\n', at)`: the first newline at or after `at`. */
  function FindNewline(content: string, at: nat): (pos: Option<nat>)
    requires at <= |content|
    ensures pos.Some? ==> at <= pos.value < |content| && content[pos.value] == '\n'
    decreases |content| - at
  {
    if at == |content| then None
    else if content[at] == '\n' then Some(at)
    else FindNewline(content, at + 1)
  }

  /** No newline lies between `at` and the one found, or the end when there is none. */
  lemma {:induction false} FindNewlineFirst(content: string, at: nat)
    requires at <= |content|
    ensures var stop := if FindNewline(content, at).Some? then FindNewline(content, at).value else |content|;
      forall j :: at <= j < stop ==> content[j] != '\n'
    decreases |content| - at
  {
    if at < |content| && content[at] != '\n' {
      FindNewlineFirst(content, at + 1);
    }
  }

  /** Where the line that starts at `at` ends: just past its newline, or at the end of the text. */
  function LineEnd(content: string, at: nat): (e: nat)
    requires at < |content|
    ensures at < e <= |content|
  {
    match FindNewline(content, at)
    case None => |content|
    case Some(pos) => pos + 1
  }

  /** The lines the provider hands out when its position is `at`. */
  function LinesFrom(content: string, at: nat): seq<string>
    decreases |content| - at
  {
    if at >= |content| then []
    else
      var e := LineEnd(content, at);
      [content[at..e]] + LinesFrom(content, e)
  }

  /** The lines of a whole text. */
  function Lines(content: string): seq<string>
  {
    LinesFrom(content, 0)
  }

  /** A line as handed out: not empty, with a newline at most at its very end. */
  predicate LineShaped(line: string)
  {
    line != [] && forall j :: 0 <= j < |line| - 1 ==> line[j] != '\n'
  }

  predicate EndsWithNewline(line: string)
  {
    line != [] && line[|line| - 1] == '\n'
  }

  /** Joining the lines gives back the text they were cut from. */
  lemma {:induction false} LinesFromConcat(content: string, at: nat)
    requires at <= |content|
    ensures Concat(LinesFrom(content, at)) == content[at..]
    decreases |content| - at
  {
    if at < |content| {
      var e := LineEnd(content, at);
      LinesFromConcat(content, e);
      var lines := LinesFrom(content, at);
      assert lines[1..] == LinesFrom(content, e);
      assert content[at..] == content[at..e] + content[e..];
    }
  }

  lemma LinesConcat(content: string)
    ensures Concat(Lines(content)) == content
  {
    LinesFromConcat(content, 0);
  }

  /** Every line is non-empty and breaks only at its end; every line but the last ends with `'\n'`. */
  lemma {:induction false} LinesFromShaped(content: string, at: nat)
    ensures forall i :: 0 <= i < |LinesFrom(content, at)| ==> LineShaped(LinesFrom(content, at)[i])
    ensures forall i :: 0 <= i < |LinesFrom(content, at)| - 1 ==> EndsWithNewline(LinesFrom(content, at)[i])
    decreases |content| - at
  {
    if at < |content| {
      var e := LineEnd(content, at);
      LinesFromShaped(content, e);
      FindNewlineFirst(content, at);
      var line := content[at..e];
      assert LineShaped(line) by {
        forall j | 0 <= j < |line| - 1
          ensures line[j] != '\n'
        {
          assert line[j] == content[at + j];
        }
      }
      var lines := LinesFrom(content, at);
      assert lines[0] == line;
      assert forall i :: 1 <= i < |lines| ==> lines[i] == LinesFrom(content, e)[i - 1];
      if |lines| > 1 {
        assert e < |content|;
        assert FindNewline(content, at).Some?;
      }
    }
  }

  class LineProvider {
    /** The text (`std::string_view content`). */
    const content: string
    /** Where the next line starts (`last_pos`). */
    var lastPos: nat
    /** The lines still to be handed out. */
    ghost var rest: seq<string>

    ghost predicate Valid()
      reads this
    {
      rest == LinesFrom(content, lastPos)
    }

    constructor(content: string)
      ensures this.content == content && lastPos == 0
      ensures rest == Lines(content) && Valid()
    {
      this.content := content;
      lastPos := 0;
      rest := LinesFrom(content, 0);
    }

    /**
     * `get_line`: nothing once the position has reached the end; otherwise the
     * text up to and including the next newline (or to the end), moving past it.
     */
    method GetLine() returns (line: Option<string>)
      requires Valid()
      modifies this
      ensures Valid()
      ensures line.None? <==> old(rest) == []
      ensures line.None? ==> rest == old(rest)
      ensures line.Some? ==> old(rest) == [line.value] + rest
    {
      if lastPos >= |content| {
        return None;
      }
      var start := lastPos;
      var pos := FindNewline(content, lastPos);
      lastPos := if pos.None? then |content| else pos.value + 1;
      line := Some(content[start..lastPos]);
      rest := rest[1..];
    }
  }
}
