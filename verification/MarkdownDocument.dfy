/** The Markdown parser as a whole: the blocks of its documents are what the lines say, and hold their runes. */
module MarkdownDocument {
  import opened Text
  import opened TextParts
  import opened MarkdownLines
  import opened MarkdownSections
  import opened MarkdownParser
  import opened MarkdownFacts
  import opened MarkdownText

  // ---------- line ends ----------

  /** The text is the parts with CRLF between them, and no part holds one. */
  predicate Lined(content: string, parts: seq<string>) {
    content == Join(parts, "\r\n") && parts != [] && forall part :: part in parts ==> NoCrLf(part)
  }

  predicate NoCrLf(part: string) {
    forall k :: 0 <= k < |part| - 1 ==> part[k] != '\r' || part[k + 1] != '\n'
  }

  function InFront(head: string, parts: seq<string>): seq<string>
    requires parts != []
  {
    [head + parts[0]] + parts[1..]
  }

  lemma JoinInFront(head: string, parts: seq<string>, sep: string)
    requires parts != []
    ensures Join(InFront(head, parts), sep) == head + Join(parts, sep)
  {
    if |parts| > 1 {
      Regroup(head, parts[0], sep + Join(parts[1..], sep));
      Regroup(parts[0], sep, Join(parts[1..], sep));
      Regroup(head + parts[0], sep, Join(parts[1..], sep));
      assert InFront(head, parts)[1..] == parts[1..];
    }
  }

  lemma JoinBehind(parts: seq<string>, sep: string)
    requires parts != []
    ensures Join([""] + parts, sep) == sep + Join(parts, sep)
  {
    assert ([""] + parts)[1..] == parts;
    Regroup(sep, Join(parts, sep), []);
    assert "" + sep == sep;
  }

  /** Every CRLF becomes a line feed, and nothing else changes. */
  lemma {:induction false} NewlinesReplaced(content: string) returns (parts: seq<string>)
    ensures Lined(content, parts) && NormalNewlines(content) == Join(parts, "\n")
    ensures parts[0] == "" ==> content == "" || (|content| >= 2 && content[0] == '\r' && content[1] == '\n')
    ensures parts[0] != "" ==> content != "" && parts[0][0] == content[0]
    decreases |content|
  {
    if content == [] {
      parts := [""];
    } else if |content| >= 2 && content[0] == '\r' && content[1] == '\n' {
      var rest := NewlinesReplaced(content[2..]);
      parts := [""] + rest;
      JoinBehind(rest, "\r\n");
      JoinBehind(rest, "\n");
      assert content == "\r\n" + content[2..];
    } else {
      var rest := NewlinesReplaced(content[1..]);
      var head := [content[0]];
      parts := InFront(head, rest);
      JoinInFront(head, rest, "\r\n");
      JoinInFront(head, rest, "\n");
      assert content == head + content[1..];
      HeadNoCrLf(content, rest[0]);
    }
  }

  lemma HeadNoCrLf(content: string, part: string)
    requires content != "" && !(|content| >= 2 && content[0] == '\r' && content[1] == '\n') && NoCrLf(part)
    requires part != "" ==> |content| >= 2 && part[0] == content[1]
    ensures NoCrLf([content[0]] + part)
  {
    var s := [content[0]] + part;
    forall k | 0 <= k < |s| - 1 ensures s[k] != '\r' || s[k + 1] != '\n' {
      if k > 0 {
        assert s[k] == part[k - 1] && s[k + 1] == part[k];
      }
    }
  }

  /** The lines hold the runes of the content. */
  lemma {:induction false} LinesKeepInk(content: string)
    ensures InkAll(Split(NormalNewlines(content), '\n')) == Ink(content)
  {
    var normal := NormalNewlines(content);
    var parts := NewlinesReplaced(content);
    hide Ink, Join, Split, NormalNewlines, InkAll;
    InkJoin(parts, "\r\n");
    InkJoin(parts, "\n");
    JoinSplit(normal, '\n');
    assert ['\n'] == "\n";
    InkJoin(Split(normal, '\n'), "\n");
  }

  // ---------- runes ----------

  function CellsInk(rows: seq<seq<string>>): string {
    if rows == [] then "" else CellsInk(rows[..|rows| - 1]) + InkAll(rows[|rows| - 1])
  }

  function NoBars(s: string): string {
    if s == "" then "" else (if s[0] == '|' then "" else [s[0]]) + NoBars(s[1..])
  }

  /**
   * Some runes hold a block: those of its text behind those of its mark; for code between the fences; for a table, apart
   * from bars, those of its cells, and separators.
   */
  ghost predicate Holds(ink: string, block: Block) {
    match block.kind
    case HeadingKind => ink == HashMark(block.level) + Ink(block.text)
    case QuoteKind => ink == ">" + Ink(block.text)
    case ListItemKind => exists mark :: ListMark(mark) && ink == Ink(mark) + Ink(block.text)
    case ParagraphKind => ink == Ink(block.text)
    case TableKind => if block.text != "" then ink == Ink(block.text) else exists lines :: TableInk(ink, block, lines)
    case CodeKind => exists end :: (end == "" || "```" <= end) && ink == "```" + Ink(block.language) + Ink(block.text) + end
  }

  ghost predicate TableInk(ink: string, block: Block, lines: seq<string>) {
    ink == InkAll(lines) && NoBars(InkAll(DataLines(lines))) == CellsInk(block.rows)
  }

  /** The runes hold the blocks, one after the other, and nothing else. */
  ghost predicate HoldsAll(ink: string, blocks: seq<Block>)
    decreases |blocks|
  {
    if blocks == [] then ink == ""
    else exists part, rest :: ink == part + rest && Holds(part, blocks[0]) && HoldsAll(rest, blocks[1..])
  }

  lemma BehindInk(line: string, mark: string, text: string)
    requires TextBehind(line, mark, text)
    ensures Ink(line) == Ink(mark) + Ink(text)
  {
    var gap :| MarkAt(line, mark, gap, text);
    InkConcat(mark + gap, text);
    InkConcat(mark, gap);
    InkSpace(gap);
    Regroup(Ink(mark), [], []);
  }

  lemma HashInk(level: nat)
    ensures Ink(HashMark(level)) == HashMark(level)
  {
    InkOfInk(HashMark(level));
  }

  lemma ReadsInk(line: string, block: Block)
    requires Reads(line, block.kind, block.text, block.level) && line != ""
    ensures Holds(Ink(line), block)
  {
    hide TextBehind, ListMark, HashMark, MarkedLine, Ink;
    match block.kind {
      case HeadingKind =>
        BehindInk(line, HashMark(block.level), block.text);
        HashInk(block.level);
      case QuoteKind =>
        BehindInk(line, ">", block.text);
        QuoteInk();
      case ListItemKind =>
        var mark :| ListMark(mark) && TextBehind(line, mark, block.text);
        BehindInk(line, mark, block.text);
      case TableKind =>
      case ParagraphKind =>
      case CodeKind =>
    }
  }

  lemma QuoteInk()
    ensures Ink(">") == ">" && Ink("```") == "```"
  {
    InkOfInk(">");
    InkOfInk("```");
  }

  // ---------- tables ----------

  lemma {:induction false} NoBarsConcat(a: string, b: string)
    ensures NoBars(a + b) == NoBars(a) + NoBars(b)
  {
    if a == "" {
      assert a + b == b;
    } else {
      assert (a + b)[1..] == a[1..] + b;
      NoBarsConcat(a[1..], b);
    }
  }

  lemma {:induction false} BarsGo(s: string)
    requires AllBars(s)
    ensures NoBars(Ink(s)) == ""
  {
    InkOfInk(s);
    if s != "" {
      assert s == [s[0]] + s[1..] && s[0] in s && forall c :: c in s[1..] ==> c in s;
      InkOfInk(s[1..]);
      BarsGo(s[1..]);
    }
  }

  lemma {:induction false} NoneToDrop(s: string)
    requires '|' !in s
    ensures NoBars(s) == s
  {
    if s != "" {
      NoneToDrop(s[1..]);
      assert s == [s[0]] + s[1..];
    }
  }

  lemma CellKept(cell: string)
    requires '|' !in cell
    ensures NoBars(Ink(cell)) == Ink(cell)
  {
    InInk(cell, '|');
    NoneToDrop(Ink(cell));
  }

  lemma {:induction false} JoinedBars(raw: seq<string>)
    requires forall cell :: cell in raw ==> '|' !in cell
    ensures NoBars(Ink(Join(raw, "|"))) == InkAll(raw)
  {
    hide NoBars, Ink;
    if raw == [] {
      BarsGo("");
    } else if |raw| == 1 {
      CellKept(raw[0]);
      assert raw[1..] == [];
      Regroup(Ink(raw[0]), [], []);
    } else {
      JoinedBars(raw[1..]);
      CellKept(raw[0]);
      BarsGo("|");
      InkConcat(raw[0] + "|", Join(raw[1..], "|"));
      InkConcat(raw[0], "|");
      NoBarsConcat(Ink(raw[0]) + Ink("|"), Ink(Join(raw[1..], "|")));
      NoBarsConcat(Ink(raw[0]), Ink("|"));
      Regroup(Ink(raw[0]), [], []);
    }
  }

  lemma {:induction false} CellsKeepInk(row: seq<string>, raw: seq<string>)
    requires TrimmedCells(row, raw)
    ensures InkAll(row) == InkAll(raw)
  {
    hide Trim, Ink;
    if raw != [] {
      InkTrim(raw[0]);
      CellsKeepInk(row[1..], raw[1..]);
    }
  }

  lemma RowInk(row: seq<string>, line: string)
    requires RowReads(row, line)
    ensures NoBars(Ink(line)) == InkAll(row)
  {
    hide Trim, Ink, NoBars, Join, TrimmedCells, InkAll;
    var left, raw, right :| BarsAround(Trim(line), left, raw, right) && TrimmedCells(row, raw);
    var middle := Join(raw, "|");
    InkTrim(line);
    InkConcat(left + middle, right);
    InkConcat(left, middle);
    NoBarsConcat(Ink(left) + Ink(middle), Ink(right));
    NoBarsConcat(Ink(left), Ink(middle));
    BarsGo(left);
    BarsGo(right);
    JoinedBars(raw);
    CellsKeepInk(row, raw);
    Regroup(InkAll(raw), [], []);
  }

  lemma {:induction false} RowsInk(rows: seq<seq<string>>, data: seq<string>)
    requires RowsRead(rows, data)
    ensures NoBars(InkAll(data)) == CellsInk(rows)
  {
    hide RowReads, Ink;
    if data != [] {
      var n := |data| - 1;
      RowsInk(rows[..n], data[..n]);
      RowInk(rows[n], data[n]);
      assert data == data[..n] + [data[n]];
      InkAllConcat(data[..n], [data[n]]);
      assert [data[n]][1..] == [];
      Regroup(Ink(data[n]), [], []);
      NoBarsConcat(InkAll(data[..n]), Ink(data[n]));
    }
  }

  // ---------- blocks ----------

  lemma OneLineInk(lines: seq<string>, i: nat)
    requires i < |lines|
    ensures InkAll(lines[i..i + 1]) == Ink(lines[i])
  {
    hide Ink;
    assert lines[i..i + 1][1..] == [];
    Regroup(Ink(lines[i]), [], []);
  }

  lemma LineHolds(block: Block, lines: seq<string>, i: nat)
    requires i < |lines| && LineBlock(block, lines, i)
    ensures Holds(InkAll(lines[i..i + 1]), block)
  {
    OneLineInk(lines, i);
    InkTrim(lines[i]);
    hide FenceLine, TableHead, Reads, Ink, Trim, Holds, InkAll;
    ReadsInk(Trim(lines[i]), block);
  }

  lemma TableHolds(block: Block, lines: seq<string>, from: nat, end: nat)
    requires from < end <= |lines| && TableBlock(block, lines, from, end)
    ensures Holds(InkAll(lines[from..end]), block)
  {
    hide FenceLine, TableHead, BlankLine, RowsRead, DataLines, InkAll, NoBars, CellsInk;
    RowsInk(block.rows, DataLines(lines[from..end]));
    assert TableInk(InkAll(lines[from..end]), block, lines[from..end]);
  }

  lemma FenceInk(line: string)
    requires FenceLine(line)
    ensures "```" <= Ink(line)
  {
    var t := Trim(line);
    InkTrim(line);
    InkConcat("```", t[3..]);
    assert t == "```" + t[3..];
    QuoteInk();
  }

  lemma CodeInk(block: Block, lines: seq<string>, open: nat, end: nat)
    requires open < end <= |lines| && Code(block, lines, open, end)
    ensures InkAll(lines[open..end]) == "```" + Ink(block.language) + Ink(block.text)
  {
    hide FenceLine, NoFence, TextBehind, Ink, Join, Trim;
    BehindInk(Trim(lines[open]), "```", block.language);
    InkTrim(lines[open]);
    QuoteInk();
    InkJoin(lines[open + 1..end], "\n");
    assert lines[open..end][0] == lines[open] && lines[open..end][1..] == lines[open + 1..end];
  }

  lemma CodeHolds(block: Block, lines: seq<string>, open: nat, end: nat)
    requires open < end <= |lines| && Code(block, lines, open, end)
    ensures end == |lines| ==> Holds(InkAll(lines[open..end]), block)
    ensures end < |lines| && FenceLine(lines[end]) ==> Holds(InkAll(lines[open..end + 1]), block)
  {
    CodeInk(block, lines, open, end);
    hide FenceLine, NoFence, TextBehind, Ink, Join, InkAll;
    var ink := "```" + Ink(block.language) + Ink(block.text);
    Regroup(ink, [], []);
    if end < |lines| && FenceLine(lines[end]) {
      FenceInk(lines[end]);
      assert lines[open..end + 1] == lines[open..end] + lines[end..end + 1];
      InkAllConcat(lines[open..end], lines[end..end + 1]);
      OneLineInk(lines, end);
    }
  }

  lemma SaysHolds(block: Block, lines: seq<string>, from: nat, end: nat)
    requires from < end <= |lines| && Says(block, lines, from, end)
    ensures Holds(InkAll(lines[from..end]), block)
  {
    hide LineBlock, TableBlock, FenceLine, Code, Holds, InkAll;
    if end == from + 1 && LineBlock(block, lines, from) {
      LineHolds(block, lines, from);
    } else if TableBlock(block, lines, from, end) {
      TableHolds(block, lines, from, end);
    } else {
      CodeHolds(block, lines, from, end - 1);
    }
  }

  lemma {:induction false} BlanksInk(lines: seq<string>, from: nat, end: nat)
    requires from <= end <= |lines| && Blanks(lines, from, end)
    ensures InkAll(lines[from..end]) == ""
    decreases end - from
  {
    hide Trim, Ink;
    if from < end {
      BlanksInk(lines, from + 1, end);
      InkTrim(lines[from]);
      assert BlankLine(lines[from]);
      NoInk();
      assert lines[from..end][1..] == lines[from + 1..end];
    }
  }

  lemma NoInk()
    ensures Ink("") == ""
  {
  }

  lemma {:induction false} HoldsNext(ink: string, part: string, block: Block, rest: string, blocks: seq<Block>)
    requires blocks != [] && blocks[0] == block && ink == part + rest && Holds(part, block) && HoldsAll(rest, blocks[1..])
    ensures HoldsAll(ink, blocks)
  {
    hide Holds;
  }

  /** The lines from `i` on hold the runes of the blocks. */
  lemma {:induction false} WrittenHolds(blocks: seq<Block>, lines: seq<string>, i: nat, unclosed: bool)
    requires Written(blocks, lines, i, unclosed)
    ensures HoldsAll(InkAll(lines[i..]), blocks)
    decreases |blocks|
  {
    hide Holds, Says, Code, InkAll, Blanks;
    if blocks == [] {
      BlanksInk(lines, i, |lines|);
      assert lines[i..|lines|] == lines[i..];
    } else if unclosed && |blocks| == 1 && exists from: nat :: LastOpen(blocks[0], lines, i, from) {
      var from: nat :| LastOpen(blocks[0], lines, i, from);
      CodeHolds(blocks[0], lines, from, |lines|);
      SplitInk(lines, i, from, |lines|);
      HoldsNext(InkAll(lines[i..]), InkAll(lines[from..]), blocks[0], "", blocks);
    } else {
      var from: nat, end: nat :| First(blocks[0], lines, i, from, end) && Written(blocks[1..], lines, end, unclosed);
      SaysHolds(blocks[0], lines, from, end);
      WrittenHolds(blocks[1..], lines, end, unclosed);
      SplitInk(lines, i, from, end);
      HoldsNext(InkAll(lines[i..]), InkAll(lines[from..end]), blocks[0], InkAll(lines[end..]), blocks);
    }
  }

  lemma {:induction false} SplitInk(lines: seq<string>, i: nat, from: nat, end: nat)
    requires i <= from <= end <= |lines| && Blanks(lines, i, from)
    ensures InkAll(lines[i..]) == InkAll(lines[from..end]) + InkAll(lines[end..])
    ensures end == |lines| ==> InkAll(lines[from..end]) == InkAll(lines[i..]) && lines[from..end] == lines[from..]
    ensures end == |lines| ==> InkAll(lines[end..]) == ""
  {
    hide InkAll, Blanks;
    BlanksInk(lines, i, from);
    assert lines[i..] == lines[i..from] + (lines[from..end] + lines[end..]);
    InkAllConcat(lines[i..from], lines[from..end] + lines[end..]);
    InkAllConcat(lines[from..end], lines[end..]);
    Regroup(InkAll(lines[from..end]), [], []);
    if end == |lines| {
      NoLines(lines);
    }
  }

  lemma NoLines(lines: seq<string>)
    ensures InkAll(lines[|lines|..]) == ""
  {
    assert lines[|lines|..] == [];
  }

  // ---------- the outcome ----------

  /** A table is never refused; any other block is when it makes too many, one never closed only when there were too many. */
  predicate TooMany(block: Block, count: nat, open: bool, maxBlocks: nat) {
    if block.kind == TableKind && block.text == "" then false
    else if open then count > maxBlocks
    else count + 1 > maxBlocks
  }

  ghost predicate OverLimit(blocks: seq<Block>, unclosed: bool, maxBlocks: nat) {
    exists k :: 0 <= k < |blocks| && TooMany(blocks[k], k, unclosed && k == |blocks| - 1, maxBlocks)
  }

  lemma {:induction false} OverLimitNext(blocks: seq<Block>, block: Block, unclosed: bool, maxBlocks: nat)
    ensures OverLimit(blocks + [block], unclosed, maxBlocks)
            <==> OverLimit(blocks, false, maxBlocks) || TooMany(block, |blocks|, unclosed, maxBlocks)
  {
    hide TooMany;
    var all := blocks + [block];
    if k :| 0 <= k < |blocks| && TooMany(blocks[k], k, false && k == |blocks| - 1, maxBlocks) {
      assert TooMany(all[k], k, unclosed && k == |all| - 1, maxBlocks);
    }
    if TooMany(block, |blocks|, unclosed, maxBlocks) {
      assert TooMany(all[|blocks|], |blocks|, unclosed && |blocks| == |all| - 1, maxBlocks);
    }
    if k :| 0 <= k < |all| && TooMany(all[k], k, unclosed && k == |all| - 1, maxBlocks) {
      assert k < |blocks| ==> TooMany(blocks[k], k, false && k == |blocks| - 1, maxBlocks);
    }
  }

  /** A single line has a text, so only the block of a table has none. */
  lemma LineHasText(line: string)
    requires Trimmed(line) && line != "" && LineType(line).kind == TableKind
    ensures LineType(line).text != ""
  {
  }

  lemma {:induction false} FitsIs(segment: Segment, lines: seq<string>, path: seq<string>, count: nat, maxBlocks: nat)
    requires InBounds(segment, lines) && !segment.Blank?
    requires segment.Single? ==> Trim(lines[segment.at]) != ""
    ensures Fits(segment, count, maxBlocks)
            <==> !TooMany(BlockOf(segment, lines, path, count + 1), count, segment.Unclosed?, maxBlocks)
  {
    if segment.Single? && LineType(Trim(lines[segment.at])).kind == TableKind {
      LineHasText(Trim(lines[segment.at]));
    }
    hide LineType, Trim;
  }

  /** No single line among the segments is blank. */
  ghost predicate NoBlankLine(segments: seq<Segment>, lines: seq<string>)
    requires AllInBounds(segments, lines)
  {
    segments == [] ||
    (&& NoBlankLine(segments[..|segments| - 1], lines)
     && var last := segments[|segments| - 1]; last.Single? ==> Trim(lines[last.at]) != "")
  }

  lemma {:induction false} NoBlankFrom(before: seq<Segment>, lines: seq<string>, i: nat)
    requires i <= |lines| && AllInBounds(before, lines) && NoBlankLine(before, lines)
    ensures AllInBounds(before + Segments(lines, i), lines) && NoBlankLine(before + Segments(lines, i), lines)
    decreases |lines| - i
  {
    if i == |lines| {
      assert before + Segments(lines, i) == before;
    } else {
      SegmentsNext(before, lines, i);
      var next := Next(lines, i);
      NextInBounds(lines, i);
      assert (before + [next])[..|before|] == before;
      assert next.Single? ==> next.at == i && Trim(lines[i]) != "";
      hide Next, Segments, Trim;
      NoBlankFrom(before + [next], lines, End(next, lines));
    }
  }

  lemma {:induction false} LimitClosed(segments: seq<Segment>, lines: seq<string>, maxBlocks: nat)
    requires AllInBounds(segments, lines) && NoBlankLine(segments, lines) && NoneUnclosed(segments)
    ensures WithinLimit(segments, lines, maxBlocks) <==> !OverLimit(BlocksOf(segments, lines), false, maxBlocks)
  {
    if segments != [] {
      var before, last := segments[..|segments| - 1], segments[|segments| - 1];
      assert before + [last] == segments;
      LimitClosed(before, lines, maxBlocks);
      hide WithinLimit, BlocksOf, OverLimit, Trim;
      LimitLast(before, last, lines, maxBlocks);
    }
  }

  /** How blocks and limit go on with one more segment. */
  lemma {:induction false} LimitStep(before: seq<Segment>, last: Segment, lines: seq<string>, maxBlocks: nat)
    returns (path: seq<string>)
    requires AllInBounds(before, lines) && InBounds(last, lines) && AllInBounds(before + [last], lines)
    ensures BlocksOf(before + [last], lines)
            == if last.Blank? then BlocksOf(before, lines)
               else BlocksOf(before, lines) + [BlockOf(last, lines, path, |BlocksOf(before, lines)| + 1)]
    ensures WithinLimit(before + [last], lines, maxBlocks)
            <==> WithinLimit(before, lines, maxBlocks) && Fits(last, |BlocksOf(before, lines)|, maxBlocks)
  {
    hide *;
    path := LookupPath(Headings(before + [last], lines));
    BlocksNext(before, lines, last, path);
    LimitNext(before, lines, last, maxBlocks);
  }

  lemma {:induction false} LimitLast(before: seq<Segment>, last: Segment, lines: seq<string>, maxBlocks: nat)
    requires AllInBounds(before, lines) && InBounds(last, lines) && AllInBounds(before + [last], lines)
    requires last.Single? ==> last.at < |lines| && Trim(lines[last.at]) != ""
    requires WithinLimit(before, lines, maxBlocks) <==> !OverLimit(BlocksOf(before, lines), false, maxBlocks)
    ensures WithinLimit(before + [last], lines, maxBlocks)
            <==> !OverLimit(BlocksOf(before + [last], lines), last.Unclosed?, maxBlocks)
  {
    hide *;
    var path := LimitStep(before, last, lines, maxBlocks);
    if last.Blank? {
      BlankFits(last, |BlocksOf(before, lines)|, maxBlocks);
    } else {
      OneMoreFits(BlocksOf(before, lines), last, lines, path, maxBlocks);
    }
  }

  lemma {:induction false} OneMoreFits(blocks: seq<Block>, last: Segment, lines: seq<string>, path: seq<string>, maxBlocks: nat)
    requires InBounds(last, lines) && !last.Blank?
    requires last.Single? ==> last.at < |lines| && Trim(lines[last.at]) != ""
    ensures OverLimit(blocks + [BlockOf(last, lines, path, |blocks| + 1)], last.Unclosed?, maxBlocks)
            <==> OverLimit(blocks, false, maxBlocks) || !Fits(last, |blocks|, maxBlocks)
  {
    hide *;
    FitsIs(last, lines, path, |blocks|, maxBlocks);
    OverLimitNext(blocks, BlockOf(last, lines, path, |blocks| + 1), last.Unclosed?, maxBlocks);
  }

  lemma BlankFits(segment: Segment, count: nat, maxBlocks: nat)
    requires segment.Blank?
    ensures Fits(segment, count, maxBlocks)
  {
  }

  lemma {:induction false} LimitOpen(segments: seq<Segment>, lines: seq<string>, maxBlocks: nat)
    requires AllInBounds(segments, lines) && NoBlankLine(segments, lines)
    requires EndsUnclosed(segments) && NoneUnclosed(segments[..|segments| - 1])
    ensures WithinLimit(segments, lines, maxBlocks) <==> !OverLimit(BlocksOf(segments, lines), true, maxBlocks)
  {
    var before, last := segments[..|segments| - 1], segments[|segments| - 1];
    assert before + [last] == segments;
    hide WithinLimit, OverLimit, BlocksOf, NoneUnclosed;
    LimitClosed(before, lines, maxBlocks);
    LimitLast(before, last, lines, maxBlocks);
  }

  lemma {:induction false} LimitIs(lines: seq<string>, maxBlocks: nat)
    ensures AllInBounds(Segments(lines, 0), lines)
    ensures var segments := Segments(lines, 0);
            WithinLimit(segments, lines, maxBlocks)
            <==> !OverLimit(BlocksOf(segments, lines), EndsUnclosed(segments), maxBlocks)
  {
    var segments := Segments(lines, 0);
    assert AllInBounds([], lines) && NoBlankLine([], lines);
    assert [] + segments == segments;
    hide *;
    NoBlankFrom([], lines, 0);
    UnclosedIsLast(lines, 0);
    if EndsUnclosed(segments) {
      LimitOpen(segments, lines, maxBlocks);
    } else {
      LimitClosed(segments, lines, maxBlocks);
    }
  }

  /** What the parser makes of the blocks a document says. */
  ghost predicate Answers(r: Parsed, blocks: seq<Block>, unclosed: bool, maxBlocks: nat) {
    match r
    case Failed(BlockLimitExceeded) => OverLimit(blocks, unclosed, maxBlocks)
    case Failed(InvalidFile) => blocks == []
    case Document(ast) => blocks != [] && !OverLimit(blocks, unclosed, maxBlocks) && ast.blocks == blocks && ast.unclosedFence == unclosed
  }

  lemma MeaningIs(lines: seq<string>, request: Request, r: Parsed)
    requires Means(lines, request, r)
    ensures AllInBounds(Segments(lines, 0), lines)
    ensures var segments := Segments(lines, 0);
            if !WithinLimit(segments, lines, request.maxBlocks) then r == Failed(BlockLimitExceeded)
            else if BlocksOf(segments, lines) == [] then r == Failed(InvalidFile)
            else r.Document? && r.ast.blocks == BlocksOf(segments, lines) && r.ast.unclosedFence == EndsUnclosed(segments)
  {
    SegmentsInBounds(lines, 0);
    hide Segments, WithinLimit, BlocksOf, EndsUnclosed, LookupPath, Headings, TitleAfter;
  }

  lemma {:induction false} DocumentSays(lines: seq<string>, request: Request, r: Parsed) returns (blocks: seq<Block>, unclosed: bool)
    requires Means(lines, request, r)
    ensures Written(blocks, lines, 0, unclosed) && Answers(r, blocks, unclosed, request.maxBlocks)
  {
    hide Segments, WithinLimit, OverLimit, BlocksOf, Written, Means, AllInBounds, EndsUnclosed;
    MeaningIs(lines, request, r);
    LimitIs(lines, request.maxBlocks);
    NoBlocks(lines);
    blocks := WrittenFrom([], lines, 0);
    assert [] + Segments(lines, 0) == Segments(lines, 0);
    Regroup(blocks, [], []);
    unclosed := EndsUnclosed(Segments(lines, 0));
  }

  lemma NoBlocks(lines: seq<string>)
    ensures AllInBounds([], lines) && BlocksOf([], lines) == []
  {
  }

  /**
   * `parseMarkdown`. The blocks are what the lines say, one after the other; they hold the runes of the content, but for the
   * marks; they are numbered, and stand under the section paths the headings give; and the title is the first heading's.
   */
  method ParseMarkdown(content: string, request: Request) returns (r: Parsed, ghost blocks: seq<Block>, ghost unclosed: bool)
    ensures Written(blocks, Split(NormalNewlines(content), '\n'), 0, unclosed)
    ensures HoldsAll(Ink(content), blocks)
    ensures Answers(r, blocks, unclosed, request.maxBlocks)
    ensures r.Document? ==> Placed(r.ast) && Entitled(r.ast, request)
    ensures Means(Split(NormalNewlines(content), '\n'), request, r)
  {
    hide *;
    var lines := Split(NormalNewlines(content), '\n');
    r := ParseLines(lines, request);
    blocks, unclosed := DocumentSays(lines, request, r);
    assert lines[0..] == lines;
    WrittenHolds(blocks, lines, 0, unclosed);
    LinesKeepInk(content);
    if r.Document? {
      SectionsOfDocument(lines, request, r.ast);
      TitleOfDocument(lines, request, r.ast);
    }
  }
}
