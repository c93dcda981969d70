/** The finishing step applied to every output file (`removeEmptyLines`):
    whitespace-only lines are removed, and a run of whitespace after the last
    non-blank line is removed except for a single terminating newline directly
    after that line. The text is viewed as lines separated by `\n`. */
module Normalize {
  import opened Text

  /** The characters of RE2's `\s`: tab, newline, form feed, carriage return and space. */
  predicate IsSpace(c: char)
  {
    c == ' ' || c == '\t' || c == '\n' || c == '\r' || c == '\U{000C}'
  }

  /** A line made only of whitespace (the empty line included). */
  predicate IsBlank(line: string)
  {
    forall i :: 0 <= i < |line| ==> IsSpace(line[i])
  }

  /** The lines that are not blank, in their original order. */
  function NonBlank(lines: seq<string>): (kept: seq<string>)
    ensures |kept| <= |lines|
    ensures forall l :: l in kept <==> l in lines && !IsBlank(l)
  {
    if |lines| == 0 then []
    else (if IsBlank(lines[0]) then [] else [lines[0]]) + NonBlank(lines[1..])
  }

  /** The lines of a text: its `\n`-separated pieces, where a final newline
      terminates the last line rather than starting an empty one, and the empty
      text has no lines. */
  function Lines(text: string): seq<string>
  {
    if text == "" then []
    else
      var pieces := Split(text, '\n');
      if pieces[|pieces| - 1] == "" then pieces[..|pieces| - 1] else pieces
  }

  /** The text ends with a newline that directly follows a non-blank line. */
  predicate EndsWithLineBreak(pieces: seq<string>)
  {
    |pieces| >= 2 && pieces[|pieces| - 1] == "" && !IsBlank(pieces[|pieces| - 2])
  }

  /** The normalised text: the non-blank lines joined by newlines, plus the
      final newline when the input ends with a non-blank line and one newline. */
  function RemoveEmptyLines(text: string): string
  {
    var pieces := Split(text, '\n');
    Join(NonBlank(pieces), '\n') + (if EndsWithLineBreak(pieces) then "\n" else "")
  }

  /** No line of `text` is blank. */
  predicate NoBlankLines(text: string)
  {
    forall l :: l in Lines(text) ==> !IsBlank(l)
  }

  /** Filtering distributes over concatenation. */
  lemma {:induction false} NonBlankAppend(a: seq<string>, b: seq<string>)
    ensures NonBlank(a + b) == NonBlank(a) + NonBlank(b)
    decreases |a|
  {
    if |a| > 0 {
      var head := if IsBlank(a[0]) then [] else [a[0]];
      assert (a + b)[0] == a[0];
      assert (a + b)[1..] == a[1..] + b;
      assert NonBlank(a + b) == head + NonBlank(a[1..] + b);
      NonBlankAppend(a[1..], b);
      assert head + (NonBlank(a[1..]) + NonBlank(b)) == (head + NonBlank(a[1..])) + NonBlank(b);
    } else {
      assert a + b == b;
    }
  }

  /** Filtering lines none of which is blank changes nothing. */
  lemma {:induction false} NonBlankKeepsAll(lines: seq<string>)
    requires forall l :: l in lines ==> !IsBlank(l)
    ensures NonBlank(lines) == lines
    decreases |lines|
  {
    if |lines| > 0 {
      assert lines[0] in lines;
      assert forall l :: l in lines[1..] ==> l in lines;
      NonBlankKeepsAll(lines[1..]);
    }
  }

  /** The lines of the output are exactly the non-blank lines of the input, with
      their content and relative order unchanged. */
  lemma LinesOfRemoveEmptyLines(text: string)
    ensures Lines(RemoveEmptyLines(text)) == NonBlank(Split(text, '\n'))
  {
    var pieces := Split(text, '\n');
    var kept := NonBlank(pieces);
    var out := RemoveEmptyLines(text);
    SplitPiecesFree(text, '\n');
    assert forall l :: l in kept ==> '\n' !in l;
    if EndsWithLineBreak(pieces) {
      assert pieces[|pieces| - 2] in kept;
    }
    if kept == [] {
      assert out == "";
    } else {
      SplitJoin(kept, '\n');
      var last := kept[|kept| - 1];
      assert last in kept;
      assert last != "";
      if EndsWithLineBreak(pieces) {
        JoinSnoc(kept, "", '\n');
        assert out == Join(kept + [""], '\n');
        SplitJoin(kept + [""], '\n');
        assert (kept + [""])[..|kept|] == kept;
      } else {
        assert out == Join(kept, '\n');
      }
    }
  }

  /** The output contains no whitespace-only line. */
  lemma RemoveEmptyLinesNoBlank(text: string)
    ensures NoBlankLines(RemoveEmptyLines(text))
  {
    LinesOfRemoveEmptyLines(text);
  }

  /** A text without blank lines comes back unchanged. */
  lemma RemoveEmptyLinesFixpoint(text: string)
    requires NoBlankLines(text)
    ensures RemoveEmptyLines(text) == text
  {
    var pieces := Split(text, '\n');
    JoinSplit(text, '\n');
    if text != "" {
      var n := |pieces|;
      if pieces[n - 1] == "" {
        FixpointWithFinalNewline(text, pieces[..n - 1]);
      } else {
        assert Lines(text) == pieces;
        NonBlankKeepsAll(pieces);
      }
    }
  }

  /** The case of a text whose last line is terminated by a newline. */
  lemma FixpointWithFinalNewline(text: string, body: seq<string>)
    requires Split(text, '\n') == body + [""]
    requires Join(body + [""], '\n') == text
    requires forall l :: l in body ==> !IsBlank(l)
    ensures RemoveEmptyLines(text) == text
  {
    var pieces := body + [""];
    if |body| == 0 {
      assert Join(pieces, '\n') == "";
      assert RemoveEmptyLines("") == "";
    } else {
      assert body[|body| - 1] in body;
      assert EndsWithLineBreak(pieces);
      NonBlankKeepsAll(body);
      NonBlankAppend(body, [""]);
      assert NonBlank([""]) == [];
      assert NonBlank(pieces) == body;
      JoinSnoc(body, "", '\n');
    }
  }

  /** The output ends with a newline exactly when the input ends with a
      non-blank line followed by a single newline. */
  lemma FinalNewline(text: string)
    ensures var out := RemoveEmptyLines(text);
      (|out| > 0 && out[|out| - 1] == '\n') <==> EndsWithLineBreak(Split(text, '\n'))
  {
    var pieces := Split(text, '\n');
    var kept := NonBlank(pieces);
    if !EndsWithLineBreak(pieces) && kept != [] {
      var last := kept[|kept| - 1];
      assert last in kept;
      SplitPiecesFree(text, '\n');
      assert last != "";
      JoinLast(kept, '\n');
      assert last[|last| - 1] in last;
    }
  }

  /** Normalising twice is the same as normalising once. */
  lemma RemoveEmptyLinesIdempotent(text: string)
    ensures RemoveEmptyLines(RemoveEmptyLines(text)) == RemoveEmptyLines(text)
  {
    RemoveEmptyLinesNoBlank(text);
    RemoveEmptyLinesFixpoint(RemoveEmptyLines(text));
  }

  /** An empty line between two non-blank lines is removed and the final newline kept. */
  lemma BlankLineBetween(a: string, b: string)
    requires '\n' !in a && '\n' !in b && !IsBlank(a) && !IsBlank(b)
    ensures RemoveEmptyLines(a + "\n\n" + b + "\n") == a + "\n" + b + "\n"
  {
    var text := a + "\n\n" + b + "\n";
    assert text == a + ['\n'] + ("" + ['\n'] + (b + ['\n'] + ""));
    SplitFree("", '\n');
    SplitCons(b, '\n', "");
    SplitCons("", '\n', b + ['\n'] + "");
    SplitCons(a, '\n', "" + ['\n'] + (b + ['\n'] + ""));
    var pieces := [a, "", b, ""];
    assert Split(text, '\n') == pieces;
    assert NonBlank([""]) == [];
    assert NonBlank([b, ""]) == [b] by { assert [b, ""][1..] == [""]; }
    assert NonBlank(["", b, ""]) == [b] by { assert ["", b, ""][1..] == [b, ""]; }
    assert NonBlank(pieces) == [a, b] by { assert pieces[1..] == ["", b, ""]; }
    assert EndsWithLineBreak(pieces);
    assert Join([a, b], '\n') == a + "\n" + b;
  }

  /** A blank line inside package content: `A: 1`, an empty line, `B: 2` loses the empty line. */
  lemma RemoveEmptyLinesExample(text: string)
    requires text == "A: 1\n\nB: 2\n"
    ensures RemoveEmptyLines(text) == "A: 1\nB: 2\n"
  {
    var a, b := "A: 1", "B: 2";
    assert !IsSpace(a[0]) && !IsSpace(b[0]);
    assert text == a + "\n\n" + b + "\n";
    BlankLineBetween(a, b);
    assert a + "\n" + b + "\n" == "A: 1\nB: 2\n";
  }
}
