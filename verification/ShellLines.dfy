/** Joining the continuation lines of a workflow `run:` block before its proof commands are searched. */
module ShellLines {
  import opened Ordering
  import opened Text

  /** The trimmed lines that are neither blank nor comments. */
  function Kept(lines: seq<string>): seq<string> {
    if lines == [] then []
    else Kept(lines[..|lines| - 1]) + if IsKept(lines[|lines| - 1]) then [Strip(lines[|lines| - 1])] else []
  }

  predicate Continues(line: string) { line != [] && line[|line| - 1] == '\\' }

  /** What a line contributes: a continued line loses its backslash and the space before it. */
  function Piece(line: string): string {
    if Continues(line) then RStrip(line[..|line| - 1]) else line
  }

  /** Runs of kept lines; a run ends at the first line that does not end in a backslash. */
  function Groups(kept: seq<string>): seq<seq<string>> {
    if kept == [] then []
    else
      var front, last := kept[..|kept| - 1], kept[|kept| - 1];
      var groups := Groups(front);
      if groups == [] || !Continues(front[|front| - 1]) then groups + [[last]]
      else groups[..|groups| - 1] + [groups[|groups| - 1] + [last]]
  }

  function Glue(text: string, piece: string): string {
    if piece == [] then text else if text == [] then piece else text + " " + piece
  }

  /** The non-empty pieces of a group, separated by single spaces. */
  function JoinGroup(group: seq<string>): string {
    if group == [] then [] else Glue(JoinGroup(group[..|group| - 1]), Piece(group[|group| - 1]))
  }

  function Render(groups: seq<seq<string>>): seq<string> {
    if groups == [] then []
    else
      var text := JoinGroup(groups[|groups| - 1]);
      Render(groups[..|groups| - 1]) + if text == [] then [] else [text]
  }

  function JoinedLines(lines: seq<string>): seq<string> { Render(Groups(Kept(lines))) }

  // ---------------------------------------------------------------- the loop

  ghost predicate CleanLine(line: string) { line != [] && Trimmed(line) && line[0] != '#' }

  /** Text that is trimmed, if there is any, and does not start a comment. */
  ghost predicate CleanText(text: string) { text == [] || CleanLine(text) }

  lemma {:induction false} RStripAppend(s: string, t: string)
    ensures RStrip(s + t) == if RStrip(t) == [] then RStrip(s) else s + RStrip(t)
  {
    if t == [] {
      assert s + t == s;
    } else {
      assert (s + t)[..|s + t| - 1] == s + t[..|t| - 1];
      if IsSpace(t[|t| - 1]) { RStripAppend(s, t[..|t| - 1]); }
    }
  }

  lemma PieceClean(line: string)
    requires CleanLine(line)
    ensures CleanText(Piece(line))
    ensures !Continues(line) ==> Piece(line) == line
  {
    RStripShape(line[..|line| - 1]);
  }

  lemma GlueClean(text: string, piece: string)
    requires CleanText(text) && CleanText(piece)
    ensures CleanText(Glue(text, piece))
    ensures piece != [] ==> Glue(text, piece) != [] && Continues(Glue(text, piece)) == Continues(piece)
  {
  }

  lemma BufferStep(buffer: string, line: string)
    requires CleanText(buffer) && CleanLine(line)
    ensures var text := if buffer != [] then Strip(buffer + " " + line) else line;
            && Continues(text) == Continues(line)
            && (if Continues(text) then RStrip(text[..|text| - 1]) else text) == Glue(buffer, Piece(line))
  {
    hide IsSpace, RStrip, LStrip, Strip;
    if buffer != [] {
      var text := buffer + " " + line;
      StripFixed(text);
      SpaceStripped(buffer);
      assert text[..|text| - 1] == (buffer + " ") + line[..|line| - 1];
      RStripAppend(buffer + " ", line[..|line| - 1]);
    }
  }

  /** Stripping text from a trimmed text and a space gives the text back. */
  lemma SpaceStripped(buffer: string)
    requires CleanText(buffer)
    ensures RStrip(buffer + " ") == buffer
  {
    assert (buffer + " ")[..|buffer|] == buffer;
  }

  /** The text still open after some kept lines, and the groups already closed. */
  function OpenGroup(kept: seq<string>): seq<string> {
    if kept != [] && Continues(kept[|kept| - 1]) && Groups(kept) != [] then Groups(kept)[|Groups(kept)| - 1] else []
  }

  function ClosedGroups(kept: seq<string>): seq<seq<string>> {
    if kept != [] && Continues(kept[|kept| - 1]) && Groups(kept) != [] then Groups(kept)[..|Groups(kept)| - 1]
    else Groups(kept)
  }

  lemma GroupStep(kept: seq<string>, line: string)
    ensures var grown := OpenGroup(kept) + [line];
            Groups(kept + [line]) == ClosedGroups(kept) + [grown]
  {
    assert (kept + [line])[..|kept|] == kept;
    assert [] + [line] == [line];
  }

  lemma {:induction false} KeptClean(lines: seq<string>)
    ensures forall i :: 0 <= i < |Kept(lines)| ==> CleanLine(Kept(lines)[i])
  {
    if lines != [] {
      KeptClean(lines[..|lines| - 1]);
      StripTrimmed(lines[|lines| - 1]);
    }
  }

  lemma RenderStep(groups: seq<seq<string>>, group: seq<string>)
    ensures Render(groups + [group]) == Render(groups) + if JoinGroup(group) == [] then [] else [JoinGroup(group)]
  {
    assert (groups + [group])[..|groups|] == groups;
  }

  lemma LoopStep(kept: seq<string>, line: string)
    requires CleanText(JoinGroup(OpenGroup(kept))) && CleanLine(line)
    ensures Render(ClosedGroups(kept + [line])) ==
            Render(ClosedGroups(kept)) +
            if Continues(line) then [] else [Glue(JoinGroup(OpenGroup(kept)), Piece(line))]
    ensures JoinGroup(OpenGroup(kept + [line])) ==
            if Continues(line) then Glue(JoinGroup(OpenGroup(kept)), Piece(line)) else []
    ensures CleanText(Glue(JoinGroup(OpenGroup(kept)), Piece(line)))
  {
    hide Groups, Render, RStrip, Piece, Glue, Trimmed;
    var grown := OpenGroup(kept) + [line];
    GroupStep(kept, line);
    assert grown[..|grown| - 1] == OpenGroup(kept);
    PieceClean(line);
    GlueClean(JoinGroup(OpenGroup(kept)), Piece(line));
    RenderStep(ClosedGroups(kept), grown);
  }

  lemma KeptStep(lines: seq<string>, i: nat)
    requires i < |lines|
    ensures Kept(lines[..i + 1]) == if IsKept(lines[i]) then Kept(lines[..i]) + [Strip(lines[i])] else Kept(lines[..i])
  {
    Prefix(lines, i);
    assert Kept(lines[..i]) + [] == Kept(lines[..i]);
  }

  lemma NothingYet()
    ensures JoinGroup([]) == [] && Kept([]) == [] && Groups([]) == []
    ensures Render(ClosedGroups([])) == [] && JoinGroup(OpenGroup([])) == []
  {
  }

  method JoinShellLines(lines: seq<string>) returns (joined: seq<string>)
    ensures joined == JoinedLines(lines)
  {
    hide JoinGroup, Groups, Render, ClosedGroups, OpenGroup, Glue, Piece, Trimmed, Strip, LStrip, RStrip, JoinedLines;
    hide Kept;
    joined := [];
    var buffer := "";
    NothingYet();
    for i := 0 to |lines|
      invariant joined == Render(ClosedGroups(Kept(lines[..i])))
      invariant buffer == JoinGroup(OpenGroup(Kept(lines[..i])))
      invariant CleanText(buffer)
    {
      KeptStep(lines, i);
      ghost var kept := Kept(lines[..i]);
      var line := Strip(lines[i]);
      if line == [] || StartsWith(line, "#") { continue; }
      StripTrimmed(lines[i]);
      BufferStep(buffer, line);
      LoopStep(kept, line);
      buffer := if buffer != [] then Strip(buffer + " " + line) else line;
      if Continues(buffer) {
        buffer := RStrip(buffer[..|buffer| - 1]);
        continue;
      }
      joined := joined + [buffer];
      buffer := "";
    }
    assert lines[..|lines|] == lines;
    JoinedParts(lines);
    if buffer != [] { joined := joined + [buffer]; }
  }

  // ---------------------------------------------------------------- what the grouping is

  ghost predicate ClosedGroup(group: seq<string>) {
    && group != []
    && (forall i :: 0 <= i < |group| - 1 ==> Continues(group[i]))
    && !Continues(group[|group| - 1])
  }

  ghost predicate OpenRun(group: seq<string>) {
    group != [] && forall i :: 0 <= i < |group| ==> Continues(group[i])
  }

  lemma ConcatStep(closed: seq<seq<string>>, open: seq<string>, last: string)
    ensures Concat(closed + [open + [last]]) == Concat(if open == [] then closed else closed + [open]) + [last]
  {
    assert (closed + [open + [last]])[..|closed|] == closed;
    assert (closed + [open])[..|closed|] == closed;
    assert Concat(closed) + (open + [last]) == (Concat(closed) + open) + [last];
  }

  lemma {:induction false} OpenShape(kept: seq<string>)
    ensures if kept != [] && Continues(kept[|kept| - 1])
            then OpenRun(OpenGroup(kept)) && Groups(kept) == ClosedGroups(kept) + [OpenGroup(kept)]
            else OpenGroup(kept) == [] && Groups(kept) == ClosedGroups(kept)
  {
    hide Groups;
    if kept != [] {
      var front, last := kept[..|kept| - 1], kept[|kept| - 1];
      assert kept == front + [last];
      OpenShape(front);
      GroupStep(front, last);
    }
  }

  lemma {:induction false} ClosedShape(kept: seq<string>)
    ensures forall g :: 0 <= g < |ClosedGroups(kept)| ==> ClosedGroup(ClosedGroups(kept)[g])
  {
    hide Groups;
    NothingYet();
    if kept != [] {
      var front, last := kept[..|kept| - 1], kept[|kept| - 1];
      assert kept == front + [last];
      ClosedShape(front);
      OpenShape(front);
      GroupStep(front, last);
      assert Groups(kept)[..|Groups(kept)| - 1] == ClosedGroups(front);
    }
  }

  lemma {:induction false} GroupsCut(kept: seq<string>)
    ensures Concat(Groups(kept)) == kept
  {
    hide Groups;
    NothingYet();
    if kept != [] {
      var front, last := kept[..|kept| - 1], kept[|kept| - 1];
      assert kept == front + [last];
      GroupsCut(front);
      OpenShape(front);
      GroupStep(front, last);
      ConcatStep(ClosedGroups(front), OpenGroup(front), last);
    }
  }

  /** The groups cut the kept lines, in order, into maximal continuation runs. */
  lemma GroupsShape(kept: seq<string>)
    ensures Concat(Groups(kept)) == kept
    ensures forall g :: 0 <= g < |ClosedGroups(kept)| ==> ClosedGroup(ClosedGroups(kept)[g])
    ensures if kept != [] && Continues(kept[|kept| - 1])
            then OpenRun(OpenGroup(kept)) && Groups(kept) == ClosedGroups(kept) + [OpenGroup(kept)]
            else OpenGroup(kept) == [] && Groups(kept) == ClosedGroups(kept)
  {
    GroupsCut(kept);
    ClosedShape(kept);
    OpenShape(kept);
  }

  // ---------------------------------------------------------------- properties of the output

  ghost predicate CleanOutput(out: seq<string>) {
    && (forall i :: 0 <= i < |out| ==> CleanLine(out[i]))
    && (forall i :: 0 <= i < |out| - 1 ==> !Continues(out[i]))
  }

  lemma {:induction false} RenderClean(kept: seq<string>)
    requires forall i :: 0 <= i < |kept| ==> CleanLine(kept[i])
    ensures CleanText(JoinGroup(OpenGroup(kept)))
    ensures CleanOutput(Render(ClosedGroups(kept)))
    ensures forall i :: 0 <= i < |Render(ClosedGroups(kept))| ==> !Continues(Render(ClosedGroups(kept))[i])
  {
    hide Groups, OpenGroup, ClosedGroups, Render, JoinGroup, Piece, Glue;
    NothingYet();
    if kept != [] {
      var front, last := kept[..|kept| - 1], kept[|kept| - 1];
      assert kept == front + [last];
      RenderClean(front);
      LoopStep(front, last);
      PieceClean(last);
      GlueClean(JoinGroup(OpenGroup(front)), Piece(last));
    }
  }

  lemma JoinedParts(lines: seq<string>)
    ensures JoinedLines(lines) ==
            Render(ClosedGroups(Kept(lines))) +
            if JoinGroup(OpenGroup(Kept(lines))) == [] then [] else [JoinGroup(OpenGroup(Kept(lines)))]
  {
    GroupsShape(Kept(lines));
    if OpenGroup(Kept(lines)) != [] { RenderStep(ClosedGroups(Kept(lines)), OpenGroup(Kept(lines))); }
  }

  /** Outputs are non-empty, trimmed and no comments, and only the last one can end in a backslash. */
  lemma JoinedClean(lines: seq<string>)
    ensures CleanOutput(JoinedLines(lines))
    ensures Kept(lines) == [] || !Continues(Kept(lines)[|Kept(lines)| - 1]) ==>
              forall i :: 0 <= i < |JoinedLines(lines)| ==> !Continues(JoinedLines(lines)[i])
  {
    hide Kept, Groups, OpenGroup, ClosedGroups, Render, JoinedLines, CleanLine;
    OpenShape(Kept(lines));
    KeptClean(lines);
    RenderClean(Kept(lines));
    JoinedParts(lines);
  }

  lemma {:induction false} KeptAppend(a: seq<string>, b: seq<string>)
    ensures Kept(a + b) == Kept(a) + Kept(b)
  {
    if b == [] {
      assert a + b == a;
    } else {
      assert (a + b)[..|a + b| - 1] == a + b[..|b| - 1];
      KeptAppend(a, b[..|b| - 1]);
    }
  }

  /** Blank and comment lines may stand anywhere, even between a backslash and its continuation. */
  lemma IgnoredLinesAnywhere(a: seq<string>, noise: seq<string>, b: seq<string>)
    requires forall i :: 0 <= i < |noise| ==> !IsKept(noise[i])
    ensures JoinedLines(a + noise + b) == JoinedLines(a + b)
  {
    KeptAppend(a + noise, b);
    KeptAppend(a, noise);
    KeptAppend(a, b);
    NothingKept(noise);
    assert Kept(a) + [] == Kept(a);
  }

  lemma {:induction false} NothingKept(noise: seq<string>)
    requires forall i :: 0 <= i < |noise| ==> !IsKept(noise[i])
    ensures Kept(noise) == []
  {
    if noise != [] { NothingKept(noise[..|noise| - 1]); }
  }

  lemma CleanKept(line: string)
    requires CleanLine(line)
    ensures IsKept(line) && Strip(line) == line
  {
    StripFixed(line);
  }

  lemma {:induction false} KeptFixed(lines: seq<string>)
    requires forall i :: 0 <= i < |lines| ==> CleanLine(lines[i])
    ensures Kept(lines) == lines
  {
    hide Strip, CleanLine, IsKept;
    if lines != [] {
      KeptFixed(lines[..|lines| - 1]);
      CleanKept(lines[|lines| - 1]);
    }
  }

  lemma {:induction false} SingleLines(lines: seq<string>)
    requires forall i :: 0 <= i < |lines| ==> CleanLine(lines[i]) && !Continues(lines[i])
    ensures Render(ClosedGroups(lines)) == lines && OpenGroup(lines) == []
  {
    hide Groups, OpenGroup, ClosedGroups, Render, JoinGroup, RStrip;
    NothingYet();
    OpenShape(lines);
    if lines != [] {
      var front, last := lines[..|lines| - 1], lines[|lines| - 1];
      assert lines == front + [last];
      SingleLines(front);
      LoopStep(front, last);
    }
  }

  /** The pieces left open at the end still end in a backslash: the last of them that is not empty does. */
  predicate Stuck(kept: seq<string>) {
    && kept != [] && Continues(kept[|kept| - 1])
    && var piece := Piece(kept[|kept| - 1]);
       if piece != [] then Continues(piece) else Stuck(kept[..|kept| - 1])
  }

  lemma {:induction false} OpenTextStuck(kept: seq<string>)
    requires forall i :: 0 <= i < |kept| ==> CleanLine(kept[i])
    ensures CleanText(JoinGroup(OpenGroup(kept)))
    ensures Continues(JoinGroup(OpenGroup(kept))) <==> Stuck(kept)
  {
    hide Groups, OpenGroup, ClosedGroups, Render, JoinGroup, Piece, Glue;
    NothingYet();
    if kept != [] {
      var front, last := kept[..|kept| - 1], kept[|kept| - 1];
      assert kept == front + [last];
      OpenTextStuck(front);
      LoopStep(front, last);
      PieceClean(last);
      GlueClean(JoinGroup(OpenGroup(front)), Piece(last));
      assert Piece(last) == [] ==> Glue(JoinGroup(OpenGroup(front)), Piece(last)) == JoinGroup(OpenGroup(front)) by {
        GlueNothing(JoinGroup(OpenGroup(front)));
      }
    }
  }

  lemma GlueNothing(text: string)
    ensures Glue(text, []) == text
  {
  }

  /** Joining the output again changes nothing exactly when the kept lines do not end stuck. */
  lemma RejoinFixed(lines: seq<string>)
    ensures JoinedLines(JoinedLines(lines)) == JoinedLines(lines) <==> !Stuck(Kept(lines))
    ensures Kept(lines) == [] || !Continues(Kept(lines)[|Kept(lines)| - 1]) ==> !Stuck(Kept(lines))
  {
    hide Kept, Groups, OpenGroup, ClosedGroups, Render, JoinedLines, JoinGroup, Piece;
    KeptClean(lines);
    RenderClean(Kept(lines));
    OpenTextStuck(Kept(lines));
    JoinedParts(lines);
    RejoinOutput(lines);
  }

  /** One line that ends in two backslashes is not joined for good at once. */
  lemma DoubleBackslash()
    ensures JoinedLines(["a\\\\"]) == ["a\\"] && JoinedLines(["a\\"]) == ["a"]
    ensures Stuck(Kept(["a\\\\"]))
  {
    var twice, once := "a\\\\", "a\\";
    assert twice[..2] == once && once[..1] == "a";
    assert Piece(twice) == once && Piece(once) == "a";
    hide Piece, Kept, JoinedLines;
    SingleContinued(twice);
    SingleContinued(once);
  }

  lemma SingleContinued(line: string)
    requires CleanLine(line) && Continues(line)
    ensures Kept([line]) == [line]
    ensures JoinedLines([line]) == if Piece(line) == [] then [] else [Piece(line)]
  {
    hide Kept, Piece, CleanLine;
    var groups := [[line]];
    KeptFixed([line]);
    NothingYet();
    assert [line][..0] == [] && groups[..0] == [];
    assert Groups([]) + groups == groups;
    assert JoinGroup([line]) == Piece(line);
    RenderStep([], [line]);
    assert [] + groups == groups && Render([]) == [];
    assert Render(groups) == [] + if Piece(line) == [] then [] else [Piece(line)];
  }

  /** Joining is idempotent exactly when the last output does not itself end in a backslash. */
  lemma RejoinOutput(lines: seq<string>)
    ensures var out := JoinedLines(lines);
            JoinedLines(out) == out <==> out == [] || !Continues(out[|out| - 1])
    ensures Kept(lines) == [] || !Continues(Kept(lines)[|Kept(lines)| - 1]) ==>
              JoinedLines(JoinedLines(lines)) == JoinedLines(lines)
  {
    hide Kept, Groups, OpenGroup, ClosedGroups, Render, JoinedLines, JoinGroup, RStrip;
    var out := JoinedLines(lines);
    NothingYet();
    JoinedClean(lines);
    KeptFixed(out);
    JoinedParts(out);
    if out != [] {
      var front, last := out[..|out| - 1], out[|out| - 1];
      assert out == front + [last];
      SingleLines(front);
      LoopStep(front, last);
      RStripShape(last[..|last| - 1]);
    }
  }

  /** A continued line is joined to the next one with a single space, however much of it stood before the backslash;
      lines that are not continued stay apart. */
  lemma TwoLines(a: string, space: string, b: string)
    requires CleanLine(a) && !Continues(a) && CleanLine(b) && !Continues(b) && AllSpace(space)
    ensures JoinedLines([a + space + "\\", b]) == [a + " " + b]
    ensures JoinedLines([a, b]) == [a, b]
  {
    hide Kept, Groups, OpenGroup, ClosedGroups, Render, JoinedLines, JoinGroup, Piece, Glue, RStrip;
    var first := a + space + "\\";
    KeptFixed([first, b]);
    KeptFixed([a, b]);
    JoinedParts([first, b]);
    SingleLines([a, b]);
    JoinedParts([a, b]);
    NothingYet();
    LoopStep([], first);
    ContinuedPiece(a, space);
    assert [] + [first] == [first] && [first] + [b] == [first, b];
    LoopStep([first], b);
    PieceClean(b);
    GlueTwo(a, b);
  }

  lemma GlueTwo(a: string, b: string)
    requires a != [] && b != []
    ensures Glue([], a) == a && Glue(a, b) == a + " " + b
  {
  }

  lemma {:induction false} SpaceCut(a: string, space: string)
    requires CleanLine(a) && AllSpace(space)
    ensures RStrip(a + space) == a
    decreases |space|
  {
    if space == [] {
      assert a + space == a;
    } else {
      var shorter := space[..|space| - 1];
      assert (a + space)[..|a + space| - 1] == a + shorter;
      SpaceCut(a, shorter);
    }
  }

  lemma ContinuedPiece(a: string, space: string)
    requires CleanLine(a) && AllSpace(space)
    ensures Continues(a + space + "\\") && Piece(a + space + "\\") == a && CleanLine(a + space + "\\")
  {
    var line := a + space + "\\";
    assert line[..|line| - 1] == a + space;
    SpaceCut(a, space);
  }
}
