/** The re-indentation of a manifest before it is placed into the object
    envelope: every line, including empty ones, gets a 16-space prefix and a
    newline terminator. */
module Indent {
  import opened Text

  /** The prefix written before every line: 16 spaces. */
  const Pad: string := "                "

  /** Each line as `Pad + line + "\n"`, concatenated in order. */
  function IndentLines(lines: seq<string>): string
  {
    if |lines| == 0 then "" else Pad + lines[0] + "\n" + IndentLines(lines[1..])
  }

  /** The indented block for a whole manifest: its content split on newlines, each piece indented. */
  function IndentContent(content: string): string
  {
    IndentLines(Split(content, '\n'))
  }

  /** Removes the 16-space prefix from every line that has it. */
  function StripPad(lines: seq<string>): (r: seq<string>)
    ensures |r| == |lines|
  {
    if |lines| == 0 then []
    else [if Pad <= lines[0] then lines[0][|Pad|..] else lines[0]] + StripPad(lines[1..])
  }

  /** Undoes the indentation: the newline-terminated lines of `block` with their
      prefixes removed, joined again with newlines. */
  function Unindent(block: string): string
  {
    var pieces := Split(block, '\n');
    Join(StripPad(pieces[..|pieces| - 1]), '\n')
  }

  /** Indenting one more line appends exactly that line's indented form. */
  lemma {:induction false} IndentLinesSnoc(lines: seq<string>, line: string)
    ensures IndentLines(lines + [line]) == IndentLines(lines) + Pad + line + "\n"
    decreases |lines|
  {
    if |lines| > 0 {
      assert (lines + [line])[1..] == lines[1..] + [line];
      IndentLinesSnoc(lines[1..], line);
    }
  }

  /** The indented block of newline-free lines consists of exactly one line per
      input line, each `Pad` followed by that line, in the original order, and
      ends with a newline. */
  lemma {:induction false} IndentLinesPieces(lines: seq<string>)
    requires forall l :: l in lines ==> '\n' !in l
    ensures var pieces := Split(IndentLines(lines), '\n');
      |pieces| == |lines| + 1 && pieces[|lines|] == "" &&
      forall i :: 0 <= i < |lines| ==> pieces[i] == Pad + lines[i]
    decreases |lines|
  {
    if |lines| == 0 {
    } else {
      assert lines[0] in lines;
      assert forall l :: l in lines[1..] ==> l in lines;
      IndentLinesPieces(lines[1..]);
      assert '\n' !in Pad;
      assert Pad + lines[0] + "\n" + IndentLines(lines[1..]) ==
        (Pad + lines[0]) + ['\n'] + IndentLines(lines[1..]);
      SplitCons(Pad + lines[0], '\n', IndentLines(lines[1..]));
    }
  }

  /** The indented block has one line per piece of the content: one more newline
      than the content has. */
  lemma IndentLineCount(content: string)
    ensures Count(IndentContent(content), '\n') == Count(content, '\n') + 1
  {
    SplitPiecesFree(content, '\n');
    IndentLinesPieces(Split(content, '\n'));
    SplitCount(content, '\n');
    SplitCount(IndentContent(content), '\n');
  }

  /** Stripping the prefix from padded lines gives the lines back. */
  lemma {:induction false} StripPadded(pieces: seq<string>, lines: seq<string>)
    requires |pieces| == |lines|
    requires forall i :: 0 <= i < |lines| ==> pieces[i] == Pad + lines[i]
    ensures StripPad(pieces) == lines
    decreases |lines|
  {
    if |lines| > 0 {
      assert Pad <= pieces[0];
      assert pieces[0][|Pad|..] == lines[0];
      StripPadded(pieces[1..], lines[1..]);
    }
  }

  /** Removing the 16-space prefixes from the indented block and joining the
      lines with newlines recovers the original content. */
  lemma IndentRoundTrip(content: string)
    ensures Unindent(IndentContent(content)) == content
  {
    var lines := Split(content, '\n');
    SplitPiecesFree(content, '\n');
    IndentLinesPieces(lines);
    var pieces := Split(IndentContent(content), '\n');
    var body := pieces[..|pieces| - 1];
    assert forall i :: 0 <= i < |lines| ==> body[i] == Pad + lines[i];
    StripPadded(body, lines);
    JoinSplit(content, '\n');
    calc {
      Unindent(IndentContent(content));
      Join(StripPad(body), '\n');
      Join(lines, '\n');
    }
  }
}
