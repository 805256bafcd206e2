/** What a Markdown document says, told without the parser: which lines a block stands for, and what its text is of them. */
module MarkdownText {
  import opened Text
  import opened TextParts
  import Decimal
  import opened MarkdownLines
  import opened MarkdownSections
  import opened MarkdownParser

  // ---------- one line ----------

  predicate QuoteLine(line: string) {
    line != "" && line[0] == '>'
  }

  predicate Bullet(mark: string) {
    mark == "- " || mark == "* " || mark == "+ "
  }

  predicate SignedDigits(s: string, sign: string, digits: string) {
    && s == sign + digits && (sign == "" || sign == "+" || sign == "-")
    && digits != "" && Decimal.Digits(digits)
    && Decimal.Value(digits) <= if sign == "-" then 0x8000_0000_0000_0000 else 0x7FFF_FFFF_FFFF_FFFF
  }

  /** A number of 64 bits, with or without a sign. */
  ghost predicate Number(s: string) {
    exists sign, digits :: SignedDigits(s, sign, digits)
  }

  /** A number, a dot and a blank. */
  ghost predicate NumberMark(mark: string) {
    |mark| >= 2 && mark[|mark| - 2] == '.' && mark[|mark| - 1] == ' ' && Number(mark[..|mark| - 2])
  }

  ghost predicate ListMark(mark: string) {
    Bullet(mark) || NumberMark(mark)
  }

  ghost predicate ListLine(line: string) {
    exists mark :: ListMark(mark) && mark <= line
  }

  ghost predicate MarkedLine(line: string) {
    (exists level: nat :: HashLine(line, level)) || QuoteLine(line) || ListLine(line)
  }

  /** What a trimmed line that is not empty says. */
  ghost predicate Reads(line: string, kind: Kind, text: string, level: nat) {
    match kind
    case HeadingKind => HashLine(line, level) && TextBehind(line, HashMark(level), text)
    case QuoteKind => level == 0 && TextBehind(line, ">", text)
    case ListItemKind => level == 0 && exists mark :: ListMark(mark) && TextBehind(line, mark, text)
    case TableKind => level == 0 && !MarkedLine(line) && '|' in line && text == line
    case ParagraphKind => level == 0 && !MarkedLine(line) && '|' !in line && text == line
    case CodeKind => false
  }

  lemma {:induction false} DotSpaceAt(line: string, n: nat)
    requires n + 2 <= |line| && line[n] == '.' && line[n + 1] == ' ' && forall k :: 0 <= k < n ==> line[k] != '.'
    ensures DotSpace(line) == n
  {
    if n > 0 {
      DotSpaceAt(line[1..], n - 1);
      assert line[0] != ". "[0];
    } else {
      assert line[..2] == ". ";
    }
  }

  lemma {:induction false} DotSpaceThere(line: string)
    requires DotSpace(line) < |line|
    ensures var n := DotSpace(line); n + 2 <= |line| && line[n] == '.' && line[n + 1] == ' '
  {
    if !HasPrefix(line, ". ") {
      DotSpaceThere(line[1..]);
    }
  }

  lemma NumberIsAtoi(s: string)
    ensures Number(s) <==> IsAtoi(s)
  {
    if IsAtoi(s) {
      var sign, digits := AtoiParts(s);
    }
    if Number(s) {
      var sign, digits :| SignedDigits(s, sign, digits);
      PartsAtoi(s, sign, digits);
    }
  }

  lemma AtoiParts(s: string) returns (sign: string, digits: string)
    requires IsAtoi(s)
    ensures SignedDigits(s, sign, digits)
  {
    hide Decimal.Value;
    if s[0] == '+' || s[0] == '-' {
      sign, digits := [s[0]], s[1..];
    } else {
      sign, digits := "", s;
    }
    assert s == sign + digits;
  }

  lemma PartsAtoi(s: string, sign: string, digits: string)
    requires SignedDigits(s, sign, digits)
    ensures IsAtoi(s)
  {
    hide Decimal.Value;
    if sign == "" {
      assert s == digits && Decimal.IsDigit(digits[0]);
    } else {
      assert s[1..] == digits;
    }
  }

  lemma NumberHasNoDot(s: string)
    requires Number(s)
    ensures s != "" && forall k :: 0 <= k < |s| ==> s[k] != '.'
  {
    var sign, digits :| SignedDigits(s, sign, digits);
    hide Decimal.Value;
    forall k | 0 <= k < |s| ensures s[k] != '.' {
      assert k >= |sign| ==> s[k] == digits[k - |sign|] && Decimal.IsDigit(digits[k - |sign|]);
    }
  }

  /** A number mark at the start of a line is what the parser looks for. */
  lemma NumberFound(line: string, mark: string)
    requires NumberMark(mark) && mark <= line
    ensures var n := DotSpace(line); 0 < n < |line| && IsAtoi(line[..n]) && mark == line[..n + 2]
  {
    hide Number, IsAtoi;
    var n := |mark| - 2;
    assert line[..n] == mark[..n];
    NumberIsAtoi(mark[..n]);
    NumberHasNoDot(mark[..n]);
    assert forall k :: 0 <= k < n ==> line[k] == mark[..n][k];
    assert line[n] == mark[n] && line[n + 1] == mark[n + 1];
    DotSpaceAt(line, n);
  }

  lemma NumberRead(line: string)
    requires var n := DotSpace(line); 0 < n < |line| && IsAtoi(line[..n])
    ensures NumberMark(line[..DotSpace(line) + 2])
  {
    hide Number, IsAtoi;
    DotSpaceThere(line);
    var n := DotSpace(line);
    NumberIsAtoi(line[..n]);
    assert line[..n + 2][..n] == line[..n];
  }

  /** A trimmed line says what the parser takes it for. */
  lemma LineReads(line: string)
    requires Trimmed(line) && line != ""
    ensures var t := LineType(line); Reads(line, t.kind, t.text, t.level)
  {
    hide Number, IsAtoi, Trim, AllSpace, DotSpace, HashCount;
    var level := HashCount(line);
    if HasPrefix(line, "#") && level <= 6 && level < |line| && line[level] == ' ' {
      HeadingReads(line, level);
    } else if HasPrefix(line, ">") {
      assert line[..1] == ">";
      BehindMark(line, 1);
    } else if HasPrefix(line, "- ") || HasPrefix(line, "* ") || HasPrefix(line, "+ ") {
      BehindMark(line, 2);
      assert ListMark(line[..2]);
    } else {
      var n := DotSpace(line);
      if 0 < n < |line| && IsAtoi(line[..n]) {
        BehindMark(line, n + 2);
        NumberRead(line);
        assert ListMark(line[..n + 2]);
      } else {
        NotMarked(line);
      }
    }
  }

  lemma HeadingReads(line: string, level: nat)
    requires Trimmed(line) && level == HashCount(line) && "#" <= line && level <= 6 && level < |line| && line[level] == ' '
    ensures Reads(line, HeadingKind, Trim(line[level..]), level)
  {
    assert line[0] == '#';
    HashRun(line, level);
    BehindMark(line, level);
  }

  lemma QuotePrefix(line: string)
    ensures QuoteLine(line) <==> HasPrefix(line, ">")
  {
    if QuoteLine(line) {
      assert line[..1] == ">";
    }
  }

  lemma NotMarked(line: string)
    requires line != ""
    requires !(HasPrefix(line, "#") && HashCount(line) <= 6 && HashCount(line) < |line| && line[HashCount(line)] == ' ')
    requires !HasPrefix(line, ">") && !HasPrefix(line, "- ") && !HasPrefix(line, "* ") && !HasPrefix(line, "+ ")
    requires var n := DotSpace(line); !(0 < n < |line| && IsAtoi(line[..n]))
    ensures !MarkedLine(line)
  {
    hide NumberMark, IsAtoi, DotSpace, HashCount;
    forall level: nat ensures !HashLine(line, level) {
      if HashLine(line, level) {
        HashRun(line, level);
      }
    }
    QuotePrefix(line);
    forall mark | ListMark(mark) ensures !(mark <= line) {
      if mark <= line && NumberMark(mark) {
        NumberFound(line, mark);
      }
    }
  }

  // ---------- tables ----------

  /** Nothing but bars, colons, dashes and white space. */
  predicate SeparatorLine(line: string) {
    forall c :: c in line ==> IsSpace(c) || c == '|' || c == ':' || c == '-'
  }

  /** The lines that are no separators, in order. */
  function DataLines(lines: seq<string>): seq<string> {
    if lines == [] then []
    else DataLines(lines[..|lines| - 1]) + if SeparatorLine(lines[|lines| - 1]) then [] else [lines[|lines| - 1]]
  }

  predicate AllBars(s: string) {
    forall c :: c in s ==> c == '|'
  }

  /** The line is bars, the raw cells with a bar between two of them, and bars; no more bars can be taken off the ends. */
  predicate BarsAround(line: string, left: string, raw: seq<string>, right: string) {
    && line == left + Join(raw, "|") + right && AllBars(left) && AllBars(right)
    && raw != [] && (forall cell :: cell in raw ==> '|' !in cell)
    && (Join(raw, "|") == "" || (Join(raw, "|")[0] != '|' && Join(raw, "|")[|Join(raw, "|")| - 1] != '|'))
  }

  predicate TrimmedCells(row: seq<string>, raw: seq<string>) {
    |row| == |raw| && forall k :: 0 <= k < |raw| ==> row[k] == Trim(raw[k])
  }

  /** The row holds the cells of the line, each trimmed. */
  ghost predicate RowReads(row: seq<string>, line: string) {
    exists left, raw, right :: BarsAround(Trim(line), left, raw, right) && TrimmedCells(row, raw)
  }

  ghost predicate RowsRead(rows: seq<seq<string>>, data: seq<string>) {
    |rows| == |data| && forall k :: 0 <= k < |data| ==> RowReads(rows[k], data[k])
  }

  // ---------- blocks ----------

  predicate FenceLine(line: string) {
    "```" <= Trim(line)
  }

  predicate BlankLine(line: string) {
    Trim(line) == ""
  }

  predicate NoFence(lines: seq<string>, from: nat, end: nat)
    requires end <= |lines|
  {
    forall k :: from <= k < end ==> !FenceLine(lines[k])
  }

  /** A table line with a separator below it. */
  ghost predicate TableHead(lines: seq<string>, i: nat)
    requires i < |lines|
  {
    '|' in lines[i] && !MarkedLine(Trim(lines[i])) && i + 1 < |lines| && SeparatorLine(lines[i + 1])
  }

  /** One line on its own: no fence, not blank, no head of a table. */
  ghost predicate LineBlock(block: Block, lines: seq<string>, i: nat)
    requires i < |lines|
  {
    && !FenceLine(lines[i]) && !BlankLine(lines[i]) && !TableHead(lines, i)
    && Reads(Trim(lines[i]), block.kind, block.text, block.level)
    && block.rows == [] && block.language == ""
  }

  /** A table: a head, and all lines with a bar from there on. */
  ghost predicate TableBlock(block: Block, lines: seq<string>, from: nat, end: nat)
    requires from < end <= |lines|
  {
    && !FenceLine(lines[from]) && !BlankLine(lines[from]) && TableHead(lines, from)
    && (forall k :: from <= k < end ==> '|' in lines[k]) && (end < |lines| ==> '|' !in lines[end])
    && block.kind == TableKind && block.text == "" && block.level == 0 && block.language == ""
    && RowsRead(block.rows, DataLines(lines[from..end]))
  }

  /** The text is the lines `from..end`, and the language is what the fence says behind its marks. */
  ghost predicate Code(block: Block, lines: seq<string>, open: nat, end: nat)
    requires open < end <= |lines|
  {
    && FenceLine(lines[open]) && NoFence(lines, open + 1, end)
    && block.kind == CodeKind && block.text == Join(lines[open + 1..end], "\n") && block.level == 0
    && TextBehind(Trim(lines[open]), "```", block.language) && block.rows == []
  }

  /** The block is what the lines `from..end` say. */
  ghost predicate Says(block: Block, lines: seq<string>, from: nat, end: nat)
    requires from < end <= |lines|
  {
    || (end == from + 1 && LineBlock(block, lines, from))
    || TableBlock(block, lines, from, end)
    || (end - 1 > from && FenceLine(lines[end - 1]) && Code(block, lines, from, end - 1))
  }

  predicate Blanks(lines: seq<string>, from: nat, end: nat)
    requires end <= |lines|
  {
    forall k :: from <= k < end ==> BlankLine(lines[k])
  }

  ghost predicate First(block: Block, lines: seq<string>, i: nat, from: nat, end: nat) {
    i <= from < end <= |lines| && Blanks(lines, i, from) && Says(block, lines, from, end)
  }

  /** The last block may be a fence that is never closed: all lines behind it are code. */
  ghost predicate LastOpen(block: Block, lines: seq<string>, i: nat, from: nat) {
    i <= from < |lines| && Blanks(lines, i, from) && Code(block, lines, from, |lines|)
  }

  /** The blocks are what the lines from `i` on say, one after the other, with blank lines between them. */
  ghost predicate Written(blocks: seq<Block>, lines: seq<string>, i: nat, unclosed: bool) {
    i <= |lines| &&
    if blocks == [] then !unclosed && Blanks(lines, i, |lines|)
    else
      || (unclosed && |blocks| == 1 && exists from: nat :: LastOpen(blocks[0], lines, i, from))
      || exists from: nat, end: nat :: First(blocks[0], lines, i, from, end) && Written(blocks[1..], lines, end, unclosed)
  }

  // ---------- rows ----------

  lemma SeparatorIs(line: string)
    ensures SeparatorLine(line) <==> IsTableSeparator(line)
  {
    SeparatorRunes(line);
  }

  lemma {:induction false} CellsTrimmed(cells: seq<string>, n: nat)
    requires n <= |cells|
    ensures |CellTexts(cells, n)| == n && forall k :: 0 <= k < n ==> CellTexts(cells, n)[k] == Trim(cells[k])
  {
    if n > 0 {
      CellsTrimmed(cells, n - 1);
    }
  }

  lemma BarsMore(a: string, b: string)
    requires AllBars(a) && AllBars(b)
    ensures AllBars(a + b)
  {
  }

  /** Taking the bars off both ends leaves a text with none there. */
  lemma {:induction false} BarsOff(s: string) returns (left: string, right: string)
    ensures s == left + TrimBars(s) + right && AllBars(left) && AllBars(right)
    ensures var t := TrimBars(s); t == "" || (t[0] != '|' && t[|t| - 1] != '|')
    decreases |s|
  {
    hide AllBars;
    NoBarsAtAll();
    left, right := "", "";
    if s != [] && s[0] == '|' {
      left, right := BarsOff(s[1..]);
      BarsMore("|", left);
      Regroup("|", left, TrimBars(s));
      Regroup("|", left + TrimBars(s), right);
      left := "|" + left;
      assert s == "|" + s[1..];
    } else if s != [] && s[|s| - 1] == '|' {
      left, right := BarsOff(s[..|s| - 1]);
      BarsMore(right, "|");
      Regroup(left + TrimBars(s), right, "|");
      right := right + "|";
      assert s == s[..|s| - 1] + "|";
    } else {
      Regroup(s, [], []);
    }
  }

  lemma NoBarsAtAll()
    ensures AllBars("") && AllBars("|")
  {
  }

  lemma RowIsRead(line: string)
    ensures RowReads(RowOf(line), line)
  {
    hide Trim, TrimBars, Split, Join, CellTexts;
    var left, right := BarsOff(Trim(line));
    var raw := Split(TrimBars(Trim(line)), '|');
    JoinSplit(TrimBars(Trim(line)), '|');
    CellsTrimmed(raw, |raw|);
    assert ['|'] == "|";
    assert BarsAround(Trim(line), left, raw, right);
    assert TrimmedCells(RowOf(line), raw);
  }

  lemma RowsMore(rows: seq<seq<string>>, data: seq<string>, row: seq<string>, line: string)
    requires RowsRead(rows, data) && RowReads(row, line)
    ensures RowsRead(rows + [row], data + [line])
  {
    hide RowReads;
  }

  lemma {:induction false} DataNext(lines: seq<string>, from: nat, end: nat)
    requires from < end <= |lines|
    ensures DataLines(lines[from..end])
            == DataLines(lines[from..end - 1]) + if SeparatorLine(lines[end - 1]) then [] else [lines[end - 1]]
  {
    var part := lines[from..end];
    assert part[..|part| - 1] == lines[from..end - 1] && part[|part| - 1] == lines[end - 1];
    hide SeparatorLine;
  }

  lemma {:induction false} RowsAreRead(lines: seq<string>, from: nat, end: nat)
    requires from <= end <= |lines|
    ensures RowsRead(TableRows(lines, from, end), DataLines(lines[from..end]))
    decreases end
  {
    hide RowReads, SeparatorLine, IsTableSeparator, RowOf;
    if from < end {
      RowsAreRead(lines, from, end - 1);
      hide RowsRead, DataLines;
      DataNext(lines, from, end);
      SeparatorIs(lines[end - 1]);
      if SeparatorLine(lines[end - 1]) {
        Regroup(DataLines(lines[from..end - 1]), [], []);
      } else {
        RowIsRead(lines[end - 1]);
        RowsMore(TableRows(lines, from, end - 1), DataLines(lines[from..end - 1]), RowOf(lines[end - 1]), lines[end - 1]);
      }
    }
  }

  // ---------- what each segment says ----------

  lemma FenceIs(line: string)
    ensures FenceLine(line) <==> IsFence(line)
  {
  }

  lemma {:induction false} HeadIs(lines: seq<string>, i: nat)
    requires i < |lines| && Trim(lines[i]) != ""
    ensures TableHead(lines, i) <==> TableStart(lines, i)
  {
    var line := Trim(lines[i]);
    LineReads(line);
    InTrim(lines[i], '|');
    if i + 1 < |lines| {
      SeparatorIs(lines[i + 1]);
    }
    hide TextBehind, ListMark, IsTableSeparator, SeparatorLine, LineType, Trim;
    KindIsTable(line);
  }

  lemma KindIsTable(line: string)
    requires Trimmed(line) && line != ""
    ensures LineType(line).kind == TableKind <==> '|' in line && !MarkedLine(line)
  {
    LineReads(line);
    hide LineType, Trimmed;
    var t := LineType(line);
    hide MarkedLine;
    if t.kind != TableKind && t.kind != ParagraphKind {
      ReadsMarked(line, t.kind, t.text, t.level);
    }
  }

  lemma ReadsMarked(line: string, kind: Kind, text: string, level: nat)
    requires Reads(line, kind, text, level) && kind != TableKind && kind != ParagraphKind
    ensures MarkedLine(line)
  {
    hide ListMark, AllSpace, Trimmed;
    match kind {
      case HeadingKind => assert HashLine(line, level);
      case QuoteKind =>
        var gap :| MarkAt(line, ">", gap, text);
      case ListItemKind =>
        var mark :| ListMark(mark) && TextBehind(line, mark, text);
        var gap :| MarkAt(line, mark, gap, text);
        assert mark <= line;
      case CodeKind =>
    }
  }

  lemma SingleSays(lines: seq<string>, i: nat, path: seq<string>, order: nat)
    requires i < |lines| && Next(lines, i) == Single(i)
    ensures Says(BlockOf(Single(i), lines, path, order), lines, i, i + 1)
  {
    FenceIs(lines[i]);
    assert Trim(lines[i]) != "" && !TableStart(lines, i);
    HeadIs(lines, i);
    LineReads(Trim(lines[i]));
    hide FenceLine, TableHead, TableStart, Reads, LineType, Trim;
    assert LineBlock(BlockOf(Single(i), lines, path, order), lines, i);
  }

  lemma TableSays(lines: seq<string>, i: nat, end: nat, path: seq<string>, order: nat)
    requires i < |lines| && Next(lines, i) == Table(i, end)
    ensures i < end <= |lines| && Says(BlockOf(Table(i, end), lines, path, order), lines, i, end)
  {
    FenceIs(lines[i]);
    HeadIs(lines, i);
    TableProgress(lines, i);
    RowsAreRead(lines, i, end);
    hide FenceLine, TableHead, TableStart, LineType, Trim, TableRows, RowsRead, DataLines;
    assert TableBlock(BlockOf(Table(i, end), lines, path, order), lines, i, end);
  }

  lemma FencesAre(lines: seq<string>, from: nat, end: nat)
    requires end <= |lines| && forall k :: from <= k < end ==> !IsFence(lines[k])
    ensures NoFence(lines, from, end)
  {
    forall k | from <= k < end ensures !FenceLine(lines[k]) {
      FenceIs(lines[k]);
    }
  }

  lemma LanguageBehind(line: string)
    requires IsFence(line)
    ensures TextBehind(Trim(line), "```", Language(line))
  {
    BehindMark(Trim(line), 3);
    assert Trim(line)[..3] == "```";
  }

  lemma CodeSays(lines: seq<string>, open: nat, close: nat, path: seq<string>, order: nat)
    requires open < close <= |lines| && IsFence(lines[open]) && close == FenceFrom(lines, open + 1)
    ensures Code(CodeBlock(lines, open, close, order).(path := path), lines, open, close)
  {
    FenceIs(lines[open]);
    FencesAre(lines, open + 1, close);
    LanguageBehind(lines[open]);
    hide FenceLine, IsFence, Trim, Language, Join, TextBehind;
  }

  lemma FencedSays(lines: seq<string>, open: nat, close: nat, path: seq<string>, order: nat)
    requires open < |lines| && Next(lines, open) == Fenced(open, close)
    ensures open < close < |lines| && Says(BlockOf(Fenced(open, close), lines, path, order), lines, open, close + 1)
  {
    hide Trim, IsFence, Code, TableStart;
    FenceIs(lines[close]);
    CodeSays(lines, open, close, path, order);
  }

  lemma UnclosedSays(lines: seq<string>, open: nat, path: seq<string>, order: nat)
    requires open < |lines| && Next(lines, open) == Unclosed(open)
    ensures Code(BlockOf(Unclosed(open), lines, path, order), lines, open, |lines|)
  {
    hide Trim, IsFence, Code, TableStart;
    CodeSays(lines, open, |lines|, [], order);
    var block := CodeBlock(lines, open, |lines|, order);
    assert block.(path := []) == block;
  }

  // ---------- the whole document ----------

  lemma {:induction false} WrittenBlank(blocks: seq<Block>, lines: seq<string>, i: nat, unclosed: bool)
    requires i < |lines| && BlankLine(lines[i]) && Written(blocks, lines, i + 1, unclosed)
    ensures Written(blocks, lines, i, unclosed)
  {
    hide BlankLine, Says, Code;
    var j := i + 1;
    if blocks != [] {
      if unclosed && |blocks| == 1 {
        if from: nat :| LastOpen(blocks[0], lines, j, from) {
          assert LastOpen(blocks[0], lines, i, from);
        }
      }
      if from: nat, end: nat :| First(blocks[0], lines, j, from, end) && Written(blocks[1..], lines, end, unclosed) {
        assert First(blocks[0], lines, i, from, end);
      }
    }
  }

  lemma {:induction false} WrittenNext(block: Block, rest: seq<Block>, lines: seq<string>, i: nat, end: nat, unclosed: bool)
    requires i < end <= |lines| && Says(block, lines, i, end) && Written(rest, lines, end, unclosed)
    ensures Written([block] + rest, lines, i, unclosed)
  {
    hide BlankLine, Says, Code;
    var blocks := [block] + rest;
    assert blocks[1..] == rest;
    assert First(blocks[0], lines, i, i, end);
  }

  lemma {:induction false} WrittenOpen(block: Block, lines: seq<string>, i: nat)
    requires i < |lines| && Code(block, lines, i, |lines|)
    ensures Written([block], lines, i, true)
  {
    hide Code;
    assert LastOpen([block][0], lines, i, i);
  }

  lemma {:induction false} WrittenEnd(blocks: seq<Block>, lines: seq<string>)
    requires Written(blocks, lines, |lines|, false)
    ensures blocks == []
  {
    hide Says, Code;
  }

  /** The block of one segment in front of what the lines behind it say. */
  lemma {:induction false} SegmentWritten(lines: seq<string>, i: nat, path: seq<string>, order: nat, rest: seq<Block>,
                                          unclosed: bool)
    requires i < |lines| && !Next(lines, i).Blank? && !Next(lines, i).Unclosed?
    requires End(Next(lines, i), lines) <= |lines| && Written(rest, lines, End(Next(lines, i), lines), unclosed)
    ensures InBounds(Next(lines, i), lines)
    ensures Written([BlockOf(Next(lines, i), lines, path, order)] + rest, lines, i, unclosed)
  {
    NextInBounds(lines, i);
    var next := Next(lines, i);
    NextAt(lines, i);
    hide Next, Written, BlockOf, Says;
    match next {
      case Fenced(_, close) => FencedSays(lines, i, close, path, order);
      case Table(_, end) => TableSays(lines, i, end, path, order);
      case Single(_) => SingleSays(lines, i, path, order);
      case Blank(_) =>
      case Unclosed(_) =>
    }
    WrittenNext(BlockOf(next, lines, path, order), rest, lines, i, End(next, lines), unclosed);
  }

  lemma NextAt(lines: seq<string>, i: nat)
    requires i < |lines|
    ensures match Next(lines, i)
            case Blank(at) => at == i && BlankLine(lines[i])
            case Fenced(open, _) => open == i
            case Unclosed(open) => open == i
            case Table(from, _) => from == i
            case Single(at) => at == i
  {
  }

  /** The segments from line `i` on give the blocks that the lines from there say. */
  lemma {:induction false} WrittenFrom(before: seq<Segment>, lines: seq<string>, i: nat) returns (tail: seq<Block>)
    requires i <= |lines| && AllInBounds(before, lines)
    ensures AllInBounds(before + Segments(lines, i), lines)
    ensures BlocksOf(before + Segments(lines, i), lines) == BlocksOf(before, lines) + tail
    ensures Written(tail, lines, i, EndsUnclosed(Segments(lines, i)))
    decreases |lines| - i
  {
    hide *;
    if i == |lines| {
      NothingLeft(before, lines);
      tail := [];
    } else {
      var next := Next(lines, i);
      SegmentsNext(before, lines, i);
      NextInBounds(lines, i);
      tail := WrittenFrom(before + [next], lines, End(next, lines));
      tail := OneMore(before, lines, i, tail);
    }
  }

  lemma NothingLeft(before: seq<Segment>, lines: seq<string>)
    requires AllInBounds(before, lines)
    ensures AllInBounds(before + Segments(lines, |lines|), lines)
    ensures BlocksOf(before + Segments(lines, |lines|), lines) == BlocksOf(before, lines) + []
    ensures Written([], lines, |lines|, EndsUnclosed(Segments(lines, |lines|)))
  {
    assert before + Segments(lines, |lines|) == before;
    hide BlocksOf;
    Regroup(BlocksOf(before, lines), [], []);
  }

  lemma SegmentsNext(before: seq<Segment>, lines: seq<string>, i: nat)
    requires i < |lines| && AllInBounds(before, lines)
    ensures AllInBounds(before + [Next(lines, i)], lines) && End(Next(lines, i), lines) <= |lines|
    ensures before + Segments(lines, i) == before + [Next(lines, i)] + Segments(lines, End(Next(lines, i), lines))
    ensures EndsUnclosed(Segments(lines, i))
            <==> if Segments(lines, End(Next(lines, i), lines)) == [] then Next(lines, i).Unclosed?
                 else EndsUnclosed(Segments(lines, End(Next(lines, i), lines)))
  {
    var next := Next(lines, i);
    NextInBounds(lines, i);
    assert (before + [next])[..|before|] == before;
    Regroup(before, [next], Segments(lines, End(next, lines)));
  }

  lemma SegmentsStop(lines: seq<string>)
    ensures Segments(lines, |lines|) == [] && !EndsUnclosed([])
  {
  }

  lemma {:induction false} OneMore(before: seq<Segment>, lines: seq<string>, i: nat, rest: seq<Block>) returns (tail: seq<Block>)
    requires i < |lines| && AllInBounds(before, lines)
    requires var next := Next(lines, i); var end := End(next, lines);
             && end <= |lines| && AllInBounds(before + [next], lines)
             && AllInBounds(before + [next] + Segments(lines, end), lines)
             && BlocksOf(before + [next] + Segments(lines, end), lines) == BlocksOf(before + [next], lines) + rest
             && Written(rest, lines, end, EndsUnclosed(Segments(lines, end)))
    ensures AllInBounds(before + Segments(lines, i), lines)
    ensures BlocksOf(before + Segments(lines, i), lines) == BlocksOf(before, lines) + tail
    ensures Written(tail, lines, i, EndsUnclosed(Segments(lines, i)))
  {
    hide *;
    var next := Next(lines, i);
    var end := End(next, lines);
    NextInBounds(lines, i);
    SegmentsNext(before, lines, i);
    var path := LookupPath(Headings(before + [next], lines));
    var order := |BlocksOf(before, lines)| + 1;
    BlocksNext(before, lines, next, path);
    if next.Blank? {
      tail := rest;
      BlankStep(lines, i, rest);
    } else {
      var block := BlockOf(next, lines, path, order);
      tail := [block] + rest;
      Regroup(BlocksOf(before, lines), [block], rest);
      if next.Unclosed? {
        UnclosedStep(lines, i, path, order, rest);
      } else {
        ClosedStep(lines, i, path, order, rest);
      }
    }
  }

  lemma {:induction false} BlankStep(lines: seq<string>, i: nat, rest: seq<Block>)
    requires i < |lines| && Next(lines, i).Blank? && Written(rest, lines, End(Next(lines, i), lines),
                                                             EndsUnclosed(Segments(lines, End(Next(lines, i), lines))))
    ensures Written(rest, lines, i, EndsUnclosed(Segments(lines, i)))
  {
    NextAt(lines, i);
    SegmentsNext([], lines, i);
    hide Written, BlankLine, Next, Segments;
    WrittenBlank(rest, lines, i, EndsUnclosed(Segments(lines, i + 1)));
  }

  lemma {:induction false} ClosedStep(lines: seq<string>, i: nat, path: seq<string>, order: nat, rest: seq<Block>)
    requires i < |lines| && !Next(lines, i).Blank? && !Next(lines, i).Unclosed? && End(Next(lines, i), lines) <= |lines|
    requires Written(rest, lines, End(Next(lines, i), lines), EndsUnclosed(Segments(lines, End(Next(lines, i), lines))))
    ensures InBounds(Next(lines, i), lines)
    ensures Written([BlockOf(Next(lines, i), lines, path, order)] + rest, lines, i, EndsUnclosed(Segments(lines, i)))
  {
    SegmentsNext([], lines, i);
    hide Written, Next, Segments, BlockOf, InBounds, End;
    SegmentWritten(lines, i, path, order, rest, EndsUnclosed(Segments(lines, End(Next(lines, i), lines))));
  }

  lemma {:induction false} UnclosedStep(lines: seq<string>, i: nat, path: seq<string>, order: nat, rest: seq<Block>)
    requires i < |lines| && Next(lines, i).Unclosed? && End(Next(lines, i), lines) <= |lines|
    requires Written(rest, lines, End(Next(lines, i), lines), EndsUnclosed(Segments(lines, End(Next(lines, i), lines))))
    ensures InBounds(Next(lines, i), lines)
    ensures Written([BlockOf(Next(lines, i), lines, path, order)] + rest, lines, i, EndsUnclosed(Segments(lines, i)))
  {
    NextAt(lines, i);
    NextInBounds(lines, i);
    SegmentsNext([], lines, i);
    SegmentsStop(lines);
    assert End(Next(lines, i), lines) == |lines|;
    hide Written, Next, Segments, BlockOf, Code;
    WrittenEnd(rest, lines);
    UnclosedSays(lines, i, path, order);
    var block := BlockOf(Next(lines, i), lines, path, order);
    WrittenOpen(block, lines, i);
    assert [block] + rest == [block];
  }
}
