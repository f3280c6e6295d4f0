// Reading the configuration file again after a block was removed from it.
module McpRescan {
  import opened Options
  import opened McpBlocks
  import Text

  lemma {:induction false} JoinedLineEnd(a: string, rest: string)
    requires '\n' !in a
    ensures LineEnd(a + "\n" + rest) == |a|
  {
    if a != "" {
      assert (a + "\n" + rest)[1..] == a[1..] + "\n" + rest;
      JoinedLineEnd(a[1..], rest);
    }
  }

  lemma {:induction false} NoNewlineLineEnd(a: string)
    requires '\n' !in a
    ensures LineEnd(a) == |a|
  {
    if a != "" {
      NoNewlineLineEnd(a[1..]);
    }
  }

  lemma LinesOfFirst(a: string, rest: string)
    requires '\n' !in a
    ensures Lines(a + "\n" + rest) == [StripCr(a)] + Lines(rest)
  {
    var s := a + "\n" + rest;
    JoinedLineEnd(a, rest);
    assert s[..|a|] == a && s[|a| + 1..] == rest;
  }

  // The lines come back as they were exactly when none that is followed by a line break
  // ends in a carriage return, and the text does not end in an empty line that it has no
  // line break for, nor in a line break with no line before it.
  predicate ReadsBack(kept: seq<string>, newline: bool) {
    if kept == [] then !newline
    else if |kept| == 1 && !newline then kept[0] != ""
    else StripCr(kept[0]) == kept[0] && (|kept| > 1 ==> ReadsBack(kept[1..], newline))
  }

  lemma ReadsBackStep(first: string, kept: seq<string>, newline: bool)
    requires '\n' !in first && kept != []
    ensures Lines(Rejoined([first] + kept, newline)) == [StripCr(first)] + Lines(Rejoined(kept, newline))
  {
    var rest := Rejoined(kept, newline);
    assert ([first] + kept)[1..] == kept;
    assert Rejoined([first] + kept, newline) == first + "\n" + rest;
    LinesOfFirst(first, rest);
  }

  lemma ReadsBackLast(last: string, newline: bool)
    requires '\n' !in last
    ensures Lines(Rejoined([last], newline))
         == if newline then [StripCr(last)] else if last == "" then [] else [last]
  {
    if newline {
      assert Rejoined([last], newline) == last + "\n" + "";
      LinesOfFirst(last, "");
    } else {
      assert Rejoined([last], newline) == last;
      NoNewlineLineEnd(last);
    }
  }

  lemma {:induction false} ReadsBackIff(kept: seq<string>, newline: bool)
    requires forall line | line in kept :: '\n' !in line
    ensures Lines(Rejoined(kept, newline)) == kept <==> ReadsBack(kept, newline)
  {
    if kept == [] {
      if newline {
        assert Rejoined(kept, newline) == "" + "\n" + "";
        LinesOfFirst("", "");
      }
    } else if |kept| == 1 {
      assert kept == [kept[0]];
      ReadsBackLast(kept[0], newline);
    } else {
      assert kept == [kept[0]] + kept[1..];
      ReadsBackIff(kept[1..], newline);
      ReadsBackStep(kept[0], kept[1..], newline);
    }
  }

  lemma {:induction false} LinesHaveNoBreak(s: string)
    ensures forall line | line in Lines(s) :: '\n' !in line
    decreases |s|
  {
    if s != "" {
      var n := LineEnd(s);
      if n < |s| {
        LinesHaveNoBreak(s[n + 1..]);
      }
    }
  }

  // What the scanner sees when the written file is read again.

  lemma {:induction false} TrimStartCr(m: string)
    ensures Text.TrimStart(m + "\r") == if Text.TrimStart(m) == "" then "" else Text.TrimStart(m) + "\r"
  {
    var l := m + "\r";
    if m == "" {
      assert l[1..] == "";
    } else {
      assert l[1..] == m[1..] + "\r";
      if Text.IsWhitespace(m[0]) {
        TrimStartCr(m[1..]);
      }
    }
  }

  // A carriage return at the end of a line is trimmed away in any case.
  lemma TrimCr(m: string)
    ensures Text.Trim(m + "\r") == Text.Trim(m)
  {
    TrimStartCr(m);
    var t := Text.TrimStart(m);
    if t != "" {
      assert (t + "\r")[..|t|] == t && (t + "\r")[|t|] == '\r';
    }
  }

  lemma KindStripCr(line: string)
    ensures Kind(StripCr(line)) == Kind(line)
  {
    if StripCr(line) != line {
      var m := line[..|line| - 1];
      assert line == m + "\r";
      TrimCr(m);
    }
  }

  lemma BlankIsPlain()
    ensures Kind("") == Plain
  {
  }

  lemma KindsConcat(a: seq<string>, b: seq<string>)
    ensures Kinds(a + b) == Kinds(a) + Kinds(b)
  {
  }

  // The last line is lost when it is empty and has no line break.
  predicate LosesLast(kept: seq<string>, newline: bool) {
    !newline && kept != [] && kept[|kept| - 1] == ""
  }

  lemma KindsCons(first: string, rest: seq<string>)
    ensures Kinds([first] + rest) == [Kind(first)] + Kinds(rest)
  {
  }

  lemma RejoinedKindsStep(first: string, rest: seq<string>, newline: bool)
    requires '\n' !in first && rest != []
    ensures Kinds(Lines(Rejoined([first] + rest, newline))) == [Kind(first)] + Kinds(Lines(Rejoined(rest, newline)))
  {
    KindStripCr(first);
    ReadsBackStep(first, rest, newline);
    KindsCons(StripCr(first), Lines(Rejoined(rest, newline)));
  }

  lemma RejoinedKindsLast(last: string, newline: bool)
    requires '\n' !in last
    ensures Kinds(Lines(Rejoined([last], newline))) == if LosesLast([last], newline) then [] else [Kind(last)]
  {
    KindStripCr(last);
    ReadsBackLast(last, newline);
  }

  function Read(kept: seq<string>, newline: bool): seq<string> {
    if LosesLast(kept, newline) then kept[..|kept| - 1] else kept
  }

  lemma {:induction false} RejoinedKinds(kept: seq<string>, newline: bool)
    requires kept != [] && forall line | line in kept :: '\n' !in line
    ensures Kinds(Lines(Rejoined(kept, newline))) == Kinds(Read(kept, newline))
  {
    if |kept| == 1 {
      assert kept == [kept[0]];
      RejoinedKindsLast(kept[0], newline);
    } else {
      var first, rest := kept[0], kept[1..];
      assert kept == [first] + rest;
      RejoinedKinds(rest, newline);
      RejoinedKindsStep(first, rest, newline);
      assert Read(kept, newline) == [first] + Read(rest, newline);
      KindsCons(first, Read(rest, newline));
    }
  }

  // No block reaches the end of the lines.
  predicate NoneReachesEnd(blocks: seq<Block>, end: nat) {
    blocks == [] || blocks[|blocks| - 1].end != end
  }

  // A plain line at the end moves the end of a block that reaches it, and nothing else.
  lemma {:induction false} PlainAtEnd(ks: seq<LineKind>, idx: nat, p: Pending)
    ensures |Scan(ks + [Plain], idx, p)| == |Scan(ks, idx, p)|
    ensures Scan(ks, idx, p) == Scan(ks + [Plain], idx, p)
       <==> NoneReachesEnd(Scan(ks + [Plain], idx, p), idx + |ks| + 1)
  {
    var longer := ks + [Plain];
    if ks == [] {
      assert longer[1..] == [];
    } else {
      var next := After(ks[0], idx, p);
      assert longer[1..] == ks[1..] + [Plain];
      PlainAtEnd(ks[1..], idx + 1, next);
      if Completes(ks[0], p) {
        ConsSame(Block(p.start, idx, p.name), Scan(ks[1..], idx + 1, next), Scan(longer[1..], idx + 1, next));
      }
    }
  }

  lemma ConsSame(b: Block, x: seq<Block>, y: seq<Block>)
    ensures [b] + x == [b] + y <==> x == y
  {
    assert ([b] + x)[1..] == x && ([b] + y)[1..] == y;
  }

  // The text ends in a line break, or its last line is not empty, or no block reaches it.
  predicate KeepsEnd(kept: seq<string>, newline: bool) {
    newline || kept == [] || kept[|kept| - 1] != "" || NoneReachesEnd(Blocks(kept), |kept|)
  }

  // Exactly then the written file has the blocks of the kept lines.
  lemma RescanIff(kept: seq<string>, newline: bool)
    requires forall line | line in kept :: '\n' !in line
    ensures Blocks(Lines(Rejoined(kept, newline))) == Blocks(kept) <==> KeepsEnd(kept, newline)
  {
    if kept == [] {
      NothingKept(newline);
    } else {
      RejoinedKinds(kept, newline);
      if LosesLast(kept, newline) {
        assert kept == kept[..|kept| - 1] + [""];
        BlankAtEnd(kept[..|kept| - 1]);
      }
    }
  }

  lemma BlankAtEnd(init: seq<string>)
    ensures Blocks(init) == Blocks(init + [""]) <==> NoneReachesEnd(Blocks(init + [""]), |init| + 1)
  {
    BlankIsPlain();
    assert Kinds(init + [""]) == Kinds(init) + [Plain];
    PlainAtEnd(Kinds(init), 0, Outside);
  }

  lemma NothingKept(newline: bool)
    ensures Blocks(Lines(Rejoined([], newline))) == [] == Blocks([])
  {
    assert Kinds([]) == [];
    if newline {
      assert Rejoined([], true) == "" + "\n" + "";
      LinesOfFirst("", "");
      assert Lines(Rejoined([], true)) == [""];
      BlankIsPlain();
      var plain: seq<LineKind> := [Plain];
      assert Kinds([""]) == plain && plain[1..] == [];
    } else {
      assert Rejoined([], false) == "";
    }
  }

  lemma KeptHaveNoBreak(s: string, block: Block)
    requires block.start <= block.end <= |Lines(s)|
    ensures forall line | line in Kept(Lines(s), block) :: '\n' !in line
  {
    LinesHaveNoBreak(s);
    assert forall line | line in Kept(Lines(s), block) :: line in Lines(s);
  }

  // Reading the written file again finds the blocks of the old one without the first of
  // that name, the later ones moved up by its length, but for the one case above: a file
  // without a final line break in which the removal leaves an empty last line to a block.
  lemma RemovedFileHasOtherBlocks(content: string, target: string) returns (after: seq<Block>)
    requires FirstNamed(Blocks(Lines(content)), target).Some?
    ensures var lines, newline := Lines(content), EndsWithNewline(content);
            var i := FirstNamed(Blocks(lines), target).value;
            i < |Blocks(lines)|
            && var b := Blocks(lines)[i];
            b.start < b.end <= |lines|
            && Blocks(lines)[i + 1..] == Shift(after, b.end - b.start)
            && Blocks(Kept(lines, b)) == Blocks(lines)[..i] + after
            && (Blocks(Lines(Rejoined(Kept(lines, b), newline))) == Blocks(lines)[..i] + after
                <==> KeepsEnd(Kept(lines, b), newline))
  {
    var lines := Lines(content);
    FirstNamedMeans(Blocks(lines), target);
    var i := FirstNamed(Blocks(lines), target).value;
    after := RemovalKeepsOtherBlocks(lines, i);
    var kept := Kept(lines, Blocks(lines)[i]);
    KeptHaveNoBreak(content, Blocks(lines)[i]);
    RescanIff(kept, EndsWithNewline(content));
  }

  // A file for which it fails. Its first block has an empty line; removing the second
  // leaves that line at the end, where it is not read back.

  function BrokenFile(header: string, named: string): string {
    header + "\n" + ("" + "\n" + (header + "\n" + named))
  }

  predicate OneLine(line: string) {
    line != "" && '\n' !in line && StripCr(line) == line
  }

  lemma LinesCons(line: string, text: string)
    requires line == "" || OneLine(line)
    ensures Lines(line + "\n" + text) == [line] + Lines(text)
  {
    LinesOfFirst(line, text);
  }

  lemma LastLine(line: string)
    requires OneLine(line)
    ensures Lines(line) == [line]
  {
    NoNewlineLineEnd(line);
  }

  lemma BrokenLines(header: string, named: string)
    requires OneLine(header) && OneLine(named)
    ensures Lines(BrokenFile(header, named)) == [header, "", header, named]
  {
    LastLine(named);
    var two := header + "\n" + named;
    LinesCons(header, named);
    assert Lines(two) == [header, named];
    var three := "" + "\n" + two;
    LinesCons("", two);
    assert Lines(three) == ["", header, named];
    LinesCons(header, three);
  }

  lemma BrokenEnd(header: string, named: string)
    requires OneLine(named)
    ensures !EndsWithNewline(BrokenFile(header, named))
  {
    var content := BrokenFile(header, named);
    assert content[|content| - 1] == named[|named| - 1] && named[|named| - 1] in named;
  }

  lemma BrokenScan(name: string)
    ensures Scan([McpHeader, Plain, McpHeader, NameLine(name)], 0, Outside) == [Block(0, 2, None), Block(2, 4, Some(name))]
    ensures Scan([McpHeader, Plain], 0, Outside) == [Block(0, 2, None)]
  {
    var ks: seq<LineKind> := [McpHeader, Plain, McpHeader, NameLine(name)];
    assert Scan(ks[4..], 4, Inside(2, Some(name))) == [Block(2, 4, Some(name))];
    assert ks[3..][1..] == ks[4..] && Scan(ks[3..], 3, Inside(2, None)) == [Block(2, 4, Some(name))];
    assert ks[2..][1..] == ks[3..];
    assert Scan(ks[2..], 2, Inside(0, None)) == [Block(0, 2, None), Block(2, 4, Some(name))];
    assert ks[1..][1..] == ks[2..];
    var two: seq<LineKind> := [McpHeader, Plain];
    assert two[1..] == [Plain] && two[1..][1..] == [];
  }

  lemma LostLine(header: string, named: string, name: string)
    requires OneLine(header) && OneLine(named) && Kind(header) == McpHeader && Kind(named) == NameLine(name)
    ensures var lines := Lines(BrokenFile(header, named));
            Blocks(lines) == [Block(0, 2, None), Block(2, 4, Some(name))]
            && |lines| == 4 && Kept(lines, Block(2, 4, Some(name))) == [header, ""]
            && Blocks([header, ""]) == [Block(0, 2, None)]
            && Blocks(Lines(Rejoined([header, ""], false))) != Blocks([header, ""])
  {
    BrokenLines(header, named);
    BrokenScan(name);
    BlankIsPlain();
    assert Kinds([header, "", header, named]) == [McpHeader, Plain, McpHeader, NameLine(name)];
    assert Kinds([header, ""]) == [McpHeader, Plain];
    RescanIff([header, ""], false);
  }

  const HEADER := "[[mcp]]"
  const NAMED := "name=\"b\""

  lemma HeaderKind()
    ensures Kind(HEADER) == McpHeader && OneLine(HEADER)
  {
    assert Text.TrimStart(HEADER) == HEADER;
    assert Text.TrimEnd(HEADER) == HEADER;
  }

  lemma NamedKind()
    ensures Kind(NAMED) == NameLine("b") && OneLine(NAMED)
  {
    assert NAMED[4..] == "=\"b\"" && NAMED[..4] == "name";
    assert Text.TrimStart(NAMED) == NAMED && Text.TrimEnd(NAMED) == NAMED;
    var rest := NAMED[4..];
    assert Text.TrimStart(rest) == rest && rest[..1] == "=";
    var quoted := rest[1..];
    assert quoted == "\"b\"";
    assert Text.TrimStart(quoted) == quoted && Text.TrimEnd(quoted) == quoted;
    assert quoted[1..] == "b\"";
    assert Text.TrimStartChar("b\"", '"') == "b\"";
    assert "b\""[..1] == "b" && Text.TrimEndChar("b", '"') == "b";
  }

  // Removing "b" from the file of these four lines without a final line break: the other
  // block is read back one line shorter than it was.
  lemma LostLineShortensBlock()
    ensures var content := BrokenFile(HEADER, NAMED);
            Blocks(Lines(content)) == [Block(0, 2, None), Block(2, 4, Some("b"))]
            && |Lines(content)| == 4 && !EndsWithNewline(content)
            && Kept(Lines(content), Block(2, 4, Some("b"))) == [HEADER, ""]
            && Blocks([HEADER, ""]) == [Block(0, 2, None)]
            && Blocks(Lines(Rejoined([HEADER, ""], false))) != Blocks([HEADER, ""])
  {
    HeaderKind();
    NamedKind();
    LostLine(HEADER, NAMED, "b");
    BrokenEnd(HEADER, NAMED);
  }
}
