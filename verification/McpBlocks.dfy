// Removing one [[mcp]] block from a configuration file, line by line.
module McpBlocks {
  import opened Options
  import Text

  // What the scanner sees in a line.
  datatype LineKind = McpHeader | NameLine(value: string) | OtherHeader | Plain

  predicate StartsWith(s: string, prefix: string) {
    |s| >= |prefix| && s[..|prefix|] == prefix
  }

  // The value of a line of the form name = "value".
  function NameValue(trimmed: string): Option<string> {
    if !StartsWith(trimmed, "name") then None
    else
      var rest := Text.TrimStart(trimmed[4..]);
      if !StartsWith(rest, "=") then None
      else Some(Text.TrimChar(Text.Trim(rest[1..]), '"'))
  }

  function Kind(line: string): LineKind {
    var trimmed := Text.Trim(line);
    if trimmed == "[[mcp]]" then McpHeader
    else
      match NameValue(trimmed)
      case Some(value) => NameLine(value)
      case None => if StartsWith(trimmed, "[") then OtherHeader else Plain
  }

  // A line that gives a name: blanks may stand before the sign and around the value, and
  // quotes around that.
  predicate GivesName(trimmed: string, gap: string, rest: string) {
    trimmed == "name" + gap + "=" + rest && Text.AllWhitespace(gap)
  }

  lemma GivenName(trimmed: string, gap: string, rest: string)
    requires GivesName(trimmed, gap, rest)
    ensures NameValue(trimmed) == Some(Text.TrimChar(Text.Trim(rest), '"'))
  {
    var tail := "=" + rest;
    assert trimmed == "name" + (gap + tail);
    assert trimmed[..4] == "name" && trimmed[4..] == gap + tail;
    Text.TrimStartPast(gap, tail);
    assert tail[..1] == "=" && tail[1..] == rest;
  }

  lemma NameIsGiven(trimmed: string) returns (gap: string, rest: string)
    requires NameValue(trimmed).Some?
    ensures GivesName(trimmed, gap, rest) && NameValue(trimmed).value == Text.TrimChar(Text.Trim(rest), '"')
  {
    gap := Text.TrimStartMeans(trimmed[4..]);
    var tail := Text.TrimStart(trimmed[4..]);
    rest := tail[1..];
    assert tail == tail[..1] + rest == "=" + rest;
    assert trimmed == "name" + (gap + ("=" + rest));
  }

  // What the scanner sees in a line, from its text without the blanks around it.
  lemma KindMeans(line: string)
    ensures var t, k := Text.Trim(line), Kind(line);
            && (k == McpHeader <==> t == "[[mcp]]")
            && (k == OtherHeader <==> t != "[[mcp]]" && t != "" && t[0] == '[')
            && (k.NameLine? ==>
                  exists gap, rest :: GivesName(t, gap, rest) && k.value == Text.TrimChar(Text.Trim(rest), '"'))
            && (forall gap, rest | GivesName(t, gap, rest) :: k == NameLine(Text.TrimChar(Text.Trim(rest), '"')))
  {
    var t := Text.Trim(line);
    if NameValue(t).Some? {
      var gap, rest := NameIsGiven(t);
      assert t[0] == t[..4][0] == 'n';
    } else if t != "" && t[0] == '[' {
      assert t[..1] == "[";
    }
    forall gap, rest | GivesName(t, gap, rest) ensures Kind(line) == NameLine(Text.TrimChar(Text.Trim(rest), '"')) {
      GivenName(t, gap, rest);
      assert t[0] == 'n';
    }
  }

  function Kinds(lines: seq<string>): (ks: seq<LineKind>)
    ensures |ks| == |lines|
  {
    seq(|lines|, i requires 0 <= i < |lines| => Kind(lines[i]))
  }

  // The lines start .. end form an mcp block.
  datatype Block = Block(start: nat, end: nat, name: Option<string>)

  // The block being scanned, with the first name seen in it.
  datatype Pending = Outside | Inside(start: nat, name: Option<string>)

  predicate Closes(k: LineKind) {
    k.McpHeader? || k.OtherHeader?
  }

  // A line that completes the block being scanned.
  predicate Completes(k: LineKind, p: Pending) {
    Closes(k) && p.Inside?
  }

  function After(k: LineKind, idx: nat, p: Pending): Pending {
    match k
    case McpHeader => Inside(idx, None)
    case OtherHeader => Outside
    case NameLine(value) => if p.Inside? && p.name.None? then Inside(p.start, Some(value)) else p
    case Plain => p
  }

  // The blocks found from line idx on.
  function Scan(ks: seq<LineKind>, idx: nat, p: Pending): seq<Block> {
    if ks == [] then if p.Inside? then [Block(p.start, idx, p.name)] else []
    else if Completes(ks[0], p) then
      [Block(p.start, idx, p.name)] + Scan(ks[1..], idx + 1, After(ks[0], idx, p))
    else Scan(ks[1..], idx + 1, After(ks[0], idx, p))
  }

  function Blocks(lines: seq<string>): seq<Block> {
    Scan(Kinds(lines), 0, Outside)
  }

  // What the blocks are, by position.

  // The name on the first line from .. to that gives one.
  predicate FirstName(ks: seq<LineKind>, from: nat, to: nat, name: Option<string>)
    requires from <= to <= |ks|
  {
    match name
    case None => forall k | from <= k < to :: !ks[k].NameLine?
    case Some(value) => exists k | from <= k < to :: ks[k] == NameLine(value) && FirstName(ks, from, k, None)
  }

  // A block runs from an mcp header up to the next header or the end.
  predicate BlockMeans(ks: seq<LineKind>, b: Block) {
    && b.start < b.end <= |ks| && ks[b.start] == McpHeader
    && (forall k | b.start < k < b.end :: !(ks[k] == McpHeader || ks[k] == OtherHeader))
    && (b.end < |ks| ==> ks[b.end] == McpHeader || ks[b.end] == OtherHeader)
    && FirstName(ks, b.start + 1, b.end, b.name)
  }

  predicate PendingMeans(ks: seq<LineKind>, idx: nat, p: Pending)
    requires idx <= |ks|
  {
    p.Inside? ==>
      && p.start < idx && ks[p.start] == McpHeader
      && (forall k | p.start < k < idx :: !(ks[k] == McpHeader || ks[k] == OtherHeader))
      && FirstName(ks, p.start + 1, idx, p.name)
  }

  lemma PendingStep(ks: seq<LineKind>, idx: nat, p: Pending)
    requires idx < |ks| && PendingMeans(ks, idx, p)
    ensures PendingMeans(ks, idx + 1, After(ks[idx], idx, p))
  {
    var next := After(ks[idx], idx, p);
    if p.Inside? && next.Inside? && next.start == p.start && next.name.Some? {
      if p.name.Some? {
        var k :| p.start + 1 <= k < idx && ks[k] == NameLine(p.name.value) && FirstName(ks, p.start + 1, k, None);
      } else {
        assert ks[idx] == NameLine(next.name.value) && FirstName(ks, p.start + 1, idx, None);
      }
    }
  }

  predicate Starts(blocks: seq<Block>, s: nat) {
    exists i | 0 <= i < |blocks| :: blocks[i].start == s
  }

  predicate StartsRise(blocks: seq<Block>) {
    forall i, j | 0 <= i < j < |blocks| :: blocks[i].start < blocks[j].start
  }

  lemma StartsCons(b: Block, rest: seq<Block>)
    requires StartsRise(rest) && forall i | 0 <= i < |rest| :: b.start < rest[i].start
    ensures StartsRise([b] + rest) && Starts([b] + rest, b.start)
    ensures forall s: nat | Starts(rest, s) :: Starts([b] + rest, s)
  {
    var all := [b] + rest;
    assert all[0] == b && forall i | 0 <= i < |rest| :: all[i + 1] == rest[i];
    forall s: nat | Starts(rest, s) ensures Starts(all, s) {
      var i :| 0 <= i < |rest| && rest[i].start == s;
      assert all[i + 1].start == s;
    }
  }

  lemma ScanStep(ks: seq<LineKind>, idx: nat, p: Pending)
    requires idx < |ks|
    ensures Scan(ks[idx..], idx, p)
         == (if Completes(ks[idx], p) then [Block(p.start, idx, p.name)] else [])
          + Scan(ks[idx + 1..], idx + 1, After(ks[idx], idx, p))
  {
    assert ks[idx..][0] == ks[idx] && ks[idx..][1..] == ks[idx + 1..];
  }

  lemma {:induction false} ScanMeans(ks: seq<LineKind>, idx: nat, p: Pending)
    requires idx <= |ks| && PendingMeans(ks, idx, p)
    ensures var blocks := Scan(ks[idx..], idx, p);
            forall i | 0 <= i < |blocks| :: BlockMeans(ks, blocks[i])
    decreases |ks| - idx
  {
    if idx < |ks| {
      ScanStep(ks, idx, p);
      PendingStep(ks, idx, p);
      ScanMeans(ks, idx + 1, After(ks[idx], idx, p));
      if Completes(ks[idx], p) {
        assert BlockMeans(ks, Block(p.start, idx, p.name));
      }
    }
  }

  lemma {:induction false} ScanStarts(ks: seq<LineKind>, idx: nat, p: Pending)
    requires idx <= |ks| && (p.Inside? ==> p.start < idx)
    ensures var blocks := Scan(ks[idx..], idx, p);
            && (forall i | 0 <= i < |blocks| :: blocks[i].start >= if p.Inside? then p.start else idx)
            && StartsRise(blocks) && (p.Inside? ==> Starts(blocks, p.start))
            && (forall s | idx <= s < |ks| && ks[s] == McpHeader :: Starts(blocks, s))
    decreases |ks| - idx
  {
    if idx == |ks| {
      var blocks := Scan(ks[idx..], idx, p);
      assert p.Inside? ==> blocks == [Block(p.start, idx, p.name)] && blocks[0].start == p.start;
    } else {
      var next := After(ks[idx], idx, p);
      ScanStep(ks, idx, p);
      ScanStarts(ks, idx + 1, next);
      if Completes(ks[idx], p) {
        StartsCons(Block(p.start, idx, p.name), Scan(ks[idx + 1..], idx + 1, next));
      }
    }
  }

  // The blocks are exactly the stretches of lines that begin at an mcp header and go on to
  // the next header or the end, each with the first name in it, in the order of the lines.
  lemma BlocksMean(lines: seq<string>)
    ensures var ks, blocks := Kinds(lines), Blocks(lines);
            && (forall i | 0 <= i < |blocks| :: BlockMeans(ks, blocks[i])) && StartsRise(blocks)
            && (forall s | 0 <= s < |lines| && ks[s] == McpHeader :: Starts(blocks, s))
  {
    var ks := Kinds(lines);
    assert ks[0..] == ks;
    ScanMeans(ks, 0, Outside);
    ScanStarts(ks, 0, Outside);
  }

  function FirstNamed(blocks: seq<Block>, target: string): Option<nat> {
    if blocks == [] then None
    else if blocks[0].name == Some(target) then Some(0)
    else match FirstNamed(blocks[1..], target) case Some(i) => Some(i + 1) case None => None
  }

  lemma {:induction false} FirstNamedMeans(blocks: seq<Block>, target: string)
    ensures match FirstNamed(blocks, target)
            case Some(i) => i < |blocks| && blocks[i].name == Some(target)
                            && forall j | 0 <= j < i :: blocks[j].name != Some(target)
            case None => forall j | 0 <= j < |blocks| :: blocks[j].name != Some(target)
  {
    if blocks != [] {
      FirstNamedMeans(blocks[1..], target);
    }
  }

  lemma MoveHead(found: seq<Block>, b: Block, rest: seq<Block>)
    ensures found + ([b] + rest) == (found + [b]) + rest
  {
  }

  method ScanBlocks(ks: seq<LineKind>) returns (blocks: seq<Block>)
    ensures blocks == Scan(ks, 0, Outside)
  {
    blocks := [];
    var currentStart: Option<nat> := None;
    var currentName: Option<string> := None;
    ghost var p, rest := Outside, Scan(ks, 0, Outside);
    assert ks[0..] == ks && blocks + rest == rest;
    for idx := 0 to |ks|
      invariant p == if currentStart.Some? then Inside(currentStart.value, currentName) else Outside
      invariant currentStart.None? ==> currentName.None?
      invariant rest == Scan(ks[idx..], idx, p)
      invariant blocks + rest == Scan(ks, 0, Outside)
    {
      var kind := ks[idx];
      assert ks[idx..][1..] == ks[idx + 1..];
      if Completes(kind, p) {
        MoveHead(blocks, Block(p.start, idx, p.name), Scan(ks[idx + 1..], idx + 1, After(kind, idx, p)));
      }
      if kind.McpHeader? {
        if currentStart.Some? {
          blocks := blocks + [Block(currentStart.value, idx, currentName)];
          currentName := None;
        }
        currentStart := Some(idx);
      } else if kind.NameLine? && currentStart.Some? && currentName.None? {
        currentName := Some(kind.value);
      } else if kind.OtherHeader? {
        if currentStart.Some? {
          blocks := blocks + [Block(currentStart.value, idx, currentName)];
          currentStart, currentName := None, None;
        }
      }
      p := After(kind, idx, p);
      rest := Scan(ks[idx + 1..], idx + 1, p);
    }
    if currentStart.Some? {
      blocks := blocks + [Block(currentStart.value, |ks|, currentName)];
    }
  }

  // str::lines: lines end at '\n', with one '\r' before it dropped.

  function LineEnd(s: string): (n: nat)
    ensures n <= |s| && '\n' !in s[..n] && (n < |s| ==> s[n] == '\n')
  {
    if s == "" || s[0] == '\n' then 0 else 1 + LineEnd(s[1..])
  }

  function StripCr(line: string): string {
    if line != "" && line[|line| - 1] == '\r' then line[..|line| - 1] else line
  }

  function Lines(s: string): seq<string>
    decreases |s|
  {
    if s == "" then []
    else
      var n := LineEnd(s);
      if n == |s| then [s] else [StripCr(s[..n])] + Lines(s[n + 1..])
  }

  function Join(lines: seq<string>): string {
    if lines == [] then "" else if |lines| == 1 then lines[0] else lines[0] + "\n" + Join(lines[1..])
  }

  predicate EndsWithNewline(s: string) {
    s != "" && s[|s| - 1] == '\n'
  }

  function Rejoined(kept: seq<string>, newline: bool): string {
    Join(kept) + if newline then "\n" else ""
  }

  // What is left of the lines when the first block named target goes.
  function Kept(lines: seq<string>, block: Block): seq<string>
    requires block.start <= block.end <= |lines|
  {
    lines[..block.start] + lines[block.end..]
  }

  // None exactly when no block has the name; otherwise the first block of that name is
  // cut out and every other line stays, in order.
  method RemoveMcpBlock(content: string, target: string) returns (result: Option<string>)
    ensures var blocks := Blocks(Lines(content));
            match FirstNamed(blocks, target)
            case None => result == None
            case Some(i) =>
              i < |blocks| && blocks[i].start <= blocks[i].end <= |Lines(content)|
              && result == Some(Rejoined(Kept(Lines(content), blocks[i]), EndsWithNewline(content)))
  {
    var lines := Lines(content);
    var blocks := ScanBlocks(Kinds(lines));
    FirstNamedMeans(blocks, target);
    var i := FirstNamed(blocks, target);
    if i.None? {
      return None;
    }
    BlockBounds(Kinds(lines), 0, Outside, i.value);
    var kept := lines[..blocks[i.value].start] + lines[blocks[i.value].end..];
    var text := Join(kept);
    if EndsWithNewline(content) {
      text := text + "\n";
    } else {
      assert text + "" == text;
    }
    result := Some(text);
  }

  // Scanning again.

  function Shift(blocks: seq<Block>, d: nat): (r: seq<Block>)
    ensures |r| == |blocks|
  {
    if blocks == [] then []
    else [Block(blocks[0].start + d, blocks[0].end + d, blocks[0].name)] + Shift(blocks[1..], d)
  }

  predicate HeaderOrEnd(ks: seq<LineKind>) {
    ks == [] || Closes(ks[0])
  }

  function Moved(p: Pending, d: nat): Pending {
    if p.Inside? then Inside(p.start + d, p.name) else Outside
  }

  // A block that is not already open starts at or after idx, and lies within the lines.
  lemma {:induction false} BlockBounds(ks: seq<LineKind>, idx: nat, p: Pending, i: nat)
    requires i < |Scan(ks, idx, p)| && (p.Inside? ==> p.start < idx)
    ensures var b := Scan(ks, idx, p)[i];
            b.start < b.end <= idx + |ks|
            && if p.Inside? && i == 0 then b.start == p.start else idx <= b.start
  {
    if ks != [] {
      if !Completes(ks[0], p) {
        BlockBounds(ks[1..], idx + 1, After(ks[0], idx, p), i);
      } else if i > 0 {
        BlockBounds(ks[1..], idx + 1, After(ks[0], idx, p), i - 1);
      }
    }
  }

  // At a header or the end, an open block is closed and the rest does not depend on it.
  lemma HeaderCloses(ks: seq<LineKind>, idx: nat, p: Pending)
    requires HeaderOrEnd(ks) && p.Inside?
    ensures Scan(ks, idx, p) == [Block(p.start, idx, p.name)] + Scan(ks, idx, Outside)
  {
  }

  // The open block ends at the next header or the end; the others are found from there.
  lemma {:induction false} OpenBlockEnds(ks: seq<LineKind>, idx: nat, p: Pending) returns (n: nat)
    requires p.Inside?
    ensures n <= |ks| && HeaderOrEnd(ks[n..])
    ensures var blocks := Scan(ks, idx, p);
            blocks != [] && blocks[0].start == p.start && blocks[0].end == idx + n
            && blocks[1..] == Scan(ks[n..], idx + n, Outside)
  {
    if HeaderOrEnd(ks) {
      n := 0;
      HeaderCloses(ks, idx, p);
      assert ks[0..] == ks;
    } else {
      var m := OpenBlockEnds(ks[1..], idx + 1, After(ks[0], idx, p));
      n := m + 1;
      assert ks[1..][m..] == ks[n..];
    }
  }

  // Scanning the same lines at another place finds the same blocks, shifted.
  lemma {:induction false} ScanShifts(ks: seq<LineKind>, idx: nat, d: nat, p: Pending)
    ensures Scan(ks, idx + d, Moved(p, d)) == Shift(Scan(ks, idx, p), d)
  {
    if ks != [] {
      var next := After(ks[0], idx, p);
      assert After(ks[0], idx + d, Moved(p, d)) == Moved(next, d);
      ScanShifts(ks[1..], idx + 1, d, next);
    }
  }

  // What is left when the lines of a block are cut out.
  function Cut(ks: seq<LineKind>, idx: nat, b: Block): seq<LineKind>
    requires idx <= b.start <= b.end <= idx + |ks|
  {
    ks[..b.start - idx] + ks[b.end - idx..]
  }

  // The i-th of the blocks can be cut out: those before it stay, those in after move up.
  ghost predicate CutLeaves(ks: seq<LineKind>, idx: nat, p: Pending, i: nat, after: seq<Block>)
    requires i < |Scan(ks, idx, p)|
  {
    var blocks := Scan(ks, idx, p);
    var b := blocks[i];
    idx <= b.start < b.end <= idx + |ks|
    && blocks[i + 1..] == Shift(after, b.end - b.start)
    && Scan(Cut(ks, idx, b), idx, p) == blocks[..i] + after
  }

  // A block that opens at the first line, with no block open before it.
  lemma CutHere(ks: seq<LineKind>, idx: nat) returns (after: seq<Block>)
    requires ks != [] && ks[0].McpHeader?
    ensures Scan(ks, idx, Outside) != [] && CutLeaves(ks, idx, Outside, 0, after)
    ensures HeaderOrEnd(Cut(ks, idx, Scan(ks, idx, Outside)[0]))
  {
    var n := OpenBlockEnds(ks[1..], idx + 1, Inside(idx, None));
    var suffix := ks[n + 1..];
    assert ks[1..][n..] == suffix;
    after := Scan(suffix, idx, Outside);
    ScanShifts(suffix, idx, n + 1, Outside);
    var b := Scan(ks, idx, Outside)[0];
    assert Cut(ks, idx, b) == suffix;
  }

  // The same when the first line also closes a block that was open.
  lemma CutNext(ks: seq<LineKind>, idx: nat, p: Pending) returns (after: seq<Block>)
    requires ks != [] && ks[0].McpHeader? && p.Inside?
    ensures |Scan(ks, idx, p)| > 1 && CutLeaves(ks, idx, p, 1, after)
  {
    after := CutHere(ks, idx);
    HeaderCloses(ks, idx, p);
    var first, rest := Block(p.start, idx, p.name), Scan(ks, idx, Outside);
    ConsAt(first, rest, 0);
    assert Scan(ks, idx, p) == [first] + rest;
    HeaderCloses(Cut(ks, idx, rest[0]), idx, p);
    assert rest[..0] + after == after;
    assert [first] + rest[..0] == [first];
  }

  lemma ConsAt(b: Block, rest: seq<Block>, i: nat)
    requires i < |rest|
    ensures var s := [b] + rest;
            s[i + 1] == rest[i] && s[i + 2..] == rest[i + 1..] && s[..i + 1] == [b] + rest[..i]
  {
  }

  lemma CutCons(ks: seq<LineKind>, idx: nat, b: Block)
    requires ks != [] && idx + 1 <= b.start <= b.end <= idx + |ks|
    ensures Cut(ks, idx, b) != [] && Cut(ks, idx, b)[0] == ks[0]
            && Cut(ks, idx, b)[1..] == Cut(ks[1..], idx + 1, b)
  {
    assert Cut(ks, idx, b) == [ks[0]] + Cut(ks[1..], idx + 1, b);
  }

  // What holds of the lines after the first holds of all, when the block is not opened there.
  lemma CutPast(ks: seq<LineKind>, idx: nat, p: Pending, i: nat, after: seq<Block>)
    requires ks != [] && !Completes(ks[0], p)
    requires i < |Scan(ks[1..], idx + 1, After(ks[0], idx, p))|
    requires CutLeaves(ks[1..], idx + 1, After(ks[0], idx, p), i, after)
    ensures CutLeaves(ks, idx, p, i, after)
  {
    var next := After(ks[0], idx, p);
    var b := Scan(ks[1..], idx + 1, next)[i];
    assert Scan(ks, idx, p) == Scan(ks[1..], idx + 1, next);
    CutCons(ks, idx, b);
    ScanPast(Cut(ks, idx, b), idx, p);
  }

  lemma ScanPast(ks: seq<LineKind>, idx: nat, p: Pending)
    requires ks != [] && !Completes(ks[0], p)
    ensures Scan(ks, idx, p) == Scan(ks[1..], idx + 1, After(ks[0], idx, p))
  {
  }

  lemma CutPastEnd(ks: seq<LineKind>, idx: nat, p: Pending, i: nat, after: seq<Block>)
    requires ks != [] && Completes(ks[0], p)
    requires i < |Scan(ks[1..], idx + 1, After(ks[0], idx, p))|
    requires CutLeaves(ks[1..], idx + 1, After(ks[0], idx, p), i, after)
    ensures i + 1 < |Scan(ks, idx, p)| && CutLeaves(ks, idx, p, i + 1, after)
  {
    var first, rest := Block(p.start, idx, p.name), Scan(ks[1..], idx + 1, After(ks[0], idx, p));
    ConsAt(first, rest, i);
    CutCons(ks, idx, rest[i]);
    assert [first] + (rest[..i] + after) == ([first] + rest[..i]) + after;
  }

  // Cutting out any block but one already open leaves the blocks before it as they are and
  // moves the later ones up by its length.
  lemma {:induction false} CutOne(ks: seq<LineKind>, idx: nat, p: Pending, i: nat) returns (after: seq<Block>)
    requires i < |Scan(ks, idx, p)| && (p.Inside? ==> i > 0)
    ensures CutLeaves(ks, idx, p, i, after)
  {
    var next := After(ks[0], idx, p);
    if ks[0].McpHeader? && p.Outside? && i == 0 {
      after := CutHere(ks, idx);
    } else if ks[0].McpHeader? && p.Inside? && i == 1 {
      after := CutNext(ks, idx, p);
    } else if Completes(ks[0], p) {
      after := CutOne(ks[1..], idx + 1, next, i - 1);
      CutPastEnd(ks, idx, p, i - 1, after);
    } else {
      after := CutOne(ks[1..], idx + 1, next, i);
      CutPast(ks, idx, p, i, after);
    }
  }

  // Scanning what is left finds the original blocks without the removed one, the later
  // ones moved up by its length.
  lemma RemovalKeepsOtherBlocks(lines: seq<string>, i: nat) returns (after: seq<Block>)
    requires i < |Blocks(lines)|
    ensures var b := Blocks(lines)[i];
            b.start < b.end <= |lines|
            && Blocks(lines)[i + 1..] == Shift(after, b.end - b.start)
            && Blocks(Kept(lines, b)) == Blocks(lines)[..i] + after
  {
    after := CutOne(Kinds(lines), 0, Outside, i);
    var b := Blocks(lines)[i];
    assert Kinds(Kept(lines, b)) == Cut(Kinds(lines), 0, b);
  }
}
