/** The plain text chunker: paragraph blocks, packing into chunks, and the overlap pass. */
module Chunker {
  import opened Wrappers
  import opened Text
  import opened TextParts

  datatype TextBlock = TextBlock(content: string, section: string)

  datatype Chunk = Chunk(index: nat, content: string, section: string, tokenCount: nat)

  function NewChunk(index: nat, content: string, section: string): Chunk {
    Chunk(index, Trim(content), Trim(section), |Trim(content)|)
  }

  // ---------- headings ----------

  /** The text of a Markdown heading of level 1 to 6. */
  function MarkdownHeading(line: string): Option<string> {
    var count := HashCount(line);
    if count == 0 || count > 6 || |line| <= count || line[count] != ' ' then None
    else
      var heading := Trim(line[count..]);
      if heading == [] then None else Some(heading)
  }

  // ---------- paragraph blocks ----------

  function ReplaceCrLf(s: string): string {
    if s == [] then []
    else if |s| >= 2 && s[0] == '\r' && s[1] == '\n' then ['\n'] + ReplaceCrLf(s[2..])
    else [s[0]] + ReplaceCrLf(s[1..])
  }

  function ReplaceCr(s: string): string {
    if s == [] then [] else [if s[0] == '\r' then '\n' else s[0]] + ReplaceCr(s[1..])
  }

  lemma {:induction false} InkReplaceCrLf(s: string)
    ensures Ink(ReplaceCrLf(s)) == Ink(s)
  {
    if s != [] {
      if |s| >= 2 && s[0] == '\r' && s[1] == '\n' {
        InkReplaceCrLf(s[2..]);
        assert s[1..][1..] == s[2..];
        assert Ink(s) == Ink(s[1..]) == Ink(s[2..]);
      } else {
        InkReplaceCrLf(s[1..]);
      }
    }
  }

  lemma {:induction false} InkReplaceCr(s: string)
    ensures Ink(ReplaceCr(s)) == Ink(s)
  {
    if s != [] {
      InkReplaceCr(s[1..]);
    }
  }

  lemma {:induction false} LinesInkSnoc(lines: seq<string>, last: string)
    ensures InkAll(lines + [last]) == InkAll(lines) + Ink(last)
  {
    InkAllConcat(lines, [last]);
    assert [last][1..] == [];
    Regroup(Ink(last), [], []);
  }

  /** Splitting at white space loses white space only. */
  lemma {:induction false} InkSplit(s: string, sep: char)
    requires IsSpace(sep)
    ensures InkAll(Split(s, sep)) == Ink(s)
  {
    hide Ink, Join, Split;
    JoinSplit(s, sep);
    InkJoin(Split(s, sep), [sep]);
  }

  // ---------- the lines of a content ----------

  /** The lines with the line ends between them. */
  function Woven(lines: seq<string>, ends: seq<string>): string
    requires |lines| == |ends| + 1
  {
    if ends == [] then lines[0] else lines[0] + ends[0] + Woven(lines[1..], ends[1..])
  }

  predicate LineEnd(end: string) {
    end == "\n" || end == "\r" || end == "\r\n"
  }

  /** The content is the lines with a line feed, a carriage return, or both between them, and no line holds one of them. */
  ghost predicate LinesAre(content: string, lines: seq<string>) {
    && lines != [] && (forall line :: line in lines ==> '\n' !in line && '\r' !in line)
    && exists ends :: EndsAre(content, lines, ends)
  }

  /** A carriage return with a line feed behind it is one line end, not two. */
  ghost predicate EndsAre(content: string, lines: seq<string>, ends: seq<string>) {
    && |lines| == |ends| + 1 && content == Woven(lines, ends)
    && (forall k :: 0 <= k < |ends| ==> LineEnd(ends[k]))
    && forall k :: 0 <= k < |ends| - 1 && lines[k + 1] == "" && ends[k] == "\r" ==> ends[k + 1] != "\n"
  }

  function Normal(content: string): string {
    ReplaceCr(ReplaceCrLf(content))
  }

  lemma NormalCons(s: string)
    requires s != []
    ensures Normal(s) == if |s| >= 2 && s[0] == '\r' && s[1] == '\n' then "\n" + Normal(s[2..])
                         else if s[0] == '\r' then "\n" + Normal(s[1..])
                         else [s[0]] + Normal(s[1..])
  {
  }

  lemma LineFeedFirst(rest: string)
    ensures Split("\n" + rest, '\n') == [""] + Split(rest, '\n')
  {
    assert ("\n" + rest)[1..] == rest;
  }

  lemma RuneFirst(c: char, rest: string)
    requires c != '\n'
    ensures Split([c] + rest, '\n') == [[c] + Split(rest, '\n')[0]] + Split(rest, '\n')[1..]
  {
    assert ([c] + rest)[1..] == rest;
  }

  lemma WovenEnd(end: string, lines: seq<string>, ends: seq<string>, content: string)
    requires EndsAre(content, lines, ends) && LineEnd(end)
    requires end == "\r" ==> content == "" || content[0] != '\n'
    ensures EndsAre(end + content, [""] + lines, [end] + ends)
  {
    var all := [""] + lines;
    assert all[1..] == lines && ([end] + ends)[1..] == ends;
    assert "" + end == end;
    if end == "\r" && ends != [] && lines[0] == "" {
      assert content == ends[0] + Woven(lines[1..], ends[1..]);
      assert content[0] == ends[0][0];
    }
  }

  lemma WovenRune(c: char, lines: seq<string>, ends: seq<string>, content: string)
    requires EndsAre(content, lines, ends) && c != '\n' && c != '\r'
    ensures EndsAre([c] + content, [[c] + lines[0]] + lines[1..], ends)
  {
    var all := [[c] + lines[0]] + lines[1..];
    assert all[1..] == lines[1..];
    if ends != [] {
      Regroup([c], lines[0], ends[0] + Woven(lines[1..], ends[1..]));
      Regroup([c] + lines[0], ends[0], Woven(lines[1..], ends[1..]));
      Regroup(lines[0], ends[0], Woven(lines[1..], ends[1..]));
    }
  }

  /** Splitting the normalized content finds its lines. */
  lemma {:induction false} LinesFound(s: string) returns (ends: seq<string>)
    ensures EndsAre(s, Split(Normal(s), '\n'), ends)
    ensures forall line :: line in Split(Normal(s), '\n') ==> '\r' !in line
    decreases |s|
  {
    hide EndsAre, Normal, Split, LineEnd;
    if s == [] {
      ends := [];
      NoLine();
    } else {
      NormalCons(s);
      if s[0] == '\r' || s[0] == '\n' {
        var end := if |s| >= 2 && s[0] == '\r' && s[1] == '\n' then "\r\n" else [s[0]];
        var rest := s[|end|..];
        ends := LinesFound(rest);
        LineFeedFirst(Normal(rest));
        EndIs(end, s[0]);
        assert s == end + rest;
        WovenEnd(end, Split(Normal(rest), '\n'), ends, rest);
        ends := [end] + ends;
      } else {
        ends := LinesFound(s[1..]);
        RuneFirst(s[0], Normal(s[1..]));
        assert s == [s[0]] + s[1..];
        WovenRune(s[0], Split(Normal(s[1..]), '\n'), ends, s[1..]);
      }
    }
  }

  lemma EndIs(end: string, c: char)
    requires end == "\r\n" || (end == [c] && (c == '\r' || c == '\n'))
    ensures LineEnd(end)
  {
  }

  lemma NoLine()
    ensures Split(Normal(""), '\n') == [""] && EndsAre("", [""], [])
  {
  }

  function BlocksInk(blocks: seq<TextBlock>): string {
    if blocks == [] then [] else BlocksInk(blocks[..|blocks| - 1]) + Ink(blocks[|blocks| - 1].content)
  }

  /** The block's own heading, else the section of the block before it. */
  function SectionAt(blocks: seq<TextBlock>, j: nat): string
    requires j < |blocks|
  {
    match MarkdownHeading(blocks[j].content)
    case Some(h) => h
    case None => if j == 0 then [] else SectionAt(blocks, j - 1)
  }

  function LastSection(blocks: seq<TextBlock>): string {
    if blocks == [] then [] else SectionAt(blocks, |blocks| - 1)
  }

  /** Blocks are trimmed and not empty, and each carries the last heading up to it. */
  ghost predicate BlocksOk(blocks: seq<TextBlock>) {
    && BlocksTrimmed(blocks)
    && forall j :: 0 <= j < |blocks| ==> blocks[j].section == SectionAt(blocks, j)
  }

  predicate BlockTrimmed(block: TextBlock) {
    block.content != [] && Trimmed(block.content)
  }

  ghost predicate BlocksTrimmed(blocks: seq<TextBlock>) {
    forall j :: 0 <= j < |blocks| ==> BlockTrimmed(blocks[j])
  }

  lemma {:induction false} SectionAtPrefix(blocks: seq<TextBlock>, more: seq<TextBlock>, j: nat)
    requires j < |blocks|
    ensures SectionAt(blocks + more, j) == SectionAt(blocks, j)
  {
    if j > 0 {
      SectionAtPrefix(blocks, more, j - 1);
    }
  }

  lemma {:induction false} AddBlock(blocks: seq<TextBlock>, block: TextBlock)
    requires BlocksOk(blocks) && block.content != [] && Trimmed(block.content)
    requires block.section == match MarkdownHeading(block.content) case Some(h) => h case None => LastSection(blocks)
    ensures BlocksOk(blocks + [block]) && LastSection(blocks + [block]) == block.section
    ensures BlocksInk(blocks + [block]) == BlocksInk(blocks) + Ink(block.content)
  {
    var all := blocks + [block];
    assert all[..|blocks|] == blocks;
    forall j | 0 <= j < |blocks| ensures SectionAt(all, j) == SectionAt(blocks, j) {
      SectionAtPrefix(blocks, [block], j);
    }
  }

  /** The text of a paragraph in the making: trimmed lines joined by newlines, the first of them no heading. */
  predicate ParagraphOk(p: string) {
    Trimmed(p) && (p != [] ==> MarkdownHeading(p).None?)
  }

  lemma {:induction false} HashCountExtend(p: string, more: string)
    requires more != [] && more[0] != '#'
    ensures HashCount(p + more) == HashCount(p)
  {
    if p != [] && p[0] == '#' {
      assert (p + more)[1..] == p[1..] + more;
      HashCountExtend(p[1..], more);
    } else if p == [] {
      assert p + more == more;
    }
  }

  lemma {:induction false} TrimKeepsInk(s: string)
    requires s != [] && !IsSpace(s[|s| - 1])
    ensures Trim(s) != []
  {
    InkTrim(s);
    InkConcat(s[..|s| - 1], [s[|s| - 1]]);
    assert s == s[..|s| - 1] + [s[|s| - 1]];
  }

  /** A further line turns no paragraph into a heading. */
  lemma {:induction false} ParagraphGrows(p: string, line: string)
    requires p != [] && ParagraphOk(p) && line != [] && Trimmed(line)
    ensures ParagraphOk(p + "\n" + line)
  {
    var more := "\n" + line;
    assert p + "\n" + line == p + more;
    HashCountExtend(p, more);
    var count := HashCount(p);
    if 0 < count <= 6 && count < |p| && p[count] == ' ' {
      TrimKeepsInk(p[count..]);
    }
  }

  function Flushed(blocks: seq<TextBlock>, paragraph: string, section: string): seq<TextBlock> {
    var value := Trim(paragraph);
    if value != [] then blocks + [TextBlock(value, section)] else blocks
  }

  lemma {:induction false} FlushedOk(blocks: seq<TextBlock>, paragraph: string, section: string)
    requires BlocksOk(blocks) && ParagraphOk(paragraph) && section == LastSection(blocks)
    ensures BlocksOk(Flushed(blocks, paragraph, section)) && LastSection(Flushed(blocks, paragraph, section)) == section
    ensures BlocksInk(Flushed(blocks, paragraph, section)) == BlocksInk(blocks) + Ink(paragraph)
  {
    TrimOfTrimmed(paragraph);
    if paragraph != [] {
      AddBlock(blocks, TextBlock(paragraph, section));
    }
  }

  /** What the line loop of `ParseBlocks` keeps: `ink` are the non-space runes of the lines read so far. */
  ghost predicate Parsed(blocks: seq<TextBlock>, paragraph: string, section: string, ink: string) {
    && BlocksOk(blocks)
    && ParagraphOk(paragraph)
    && section == LastSection(blocks)
    && ink == BlocksInk(blocks) + Ink(paragraph)
  }

  lemma {:induction false} HeadingIsNotBlank(line: string)
    requires MarkdownHeading(line).Some?
    ensures line != []
  {
  }

  /** A heading line closes the paragraph; the heading is a block that opens its own section. */
  lemma {:induction false} HeadingLine(blocks: seq<TextBlock>, paragraph: string, section: string, ink: string,
                                       line: string, heading: string)
    requires Parsed(blocks, paragraph, section, ink)
    requires Trimmed(line) && MarkdownHeading(line) == Some(heading)
    ensures Parsed(Flushed(blocks, paragraph, section) + [TextBlock(line, heading)], [], heading, ink + Ink(line))
  {
    HeadingIsNotBlank(line);
    FlushedOk(blocks, paragraph, section);
    var flushed := Flushed(blocks, paragraph, section);
    AddBlock(flushed, TextBlock(line, heading));
    Regroup(BlocksInk(flushed + [TextBlock(line, heading)]), [], []);
    assert Ink([]) == [];
  }

  /** A blank line closes the paragraph. */
  lemma {:induction false} BlankLine(blocks: seq<TextBlock>, paragraph: string, section: string, ink: string)
    requires Parsed(blocks, paragraph, section, ink)
    ensures Parsed(Flushed(blocks, paragraph, section), [], section, ink + Ink([]))
  {
    FlushedOk(blocks, paragraph, section);
    Regroup(ink, [], []);
    assert Ink([]) == [];
  }

  function Grown(paragraph: string, line: string): string {
    if |paragraph| > 0 then paragraph + "\n" + line else line
  }

  lemma {:induction false} InkGrown(paragraph: string, line: string)
    ensures Ink(Grown(paragraph, line)) == Ink(paragraph) + Ink(line)
  {
    if |paragraph| > 0 {
      InkConcat(paragraph + "\n", line);
      InkConcat(paragraph, "\n");
      assert Ink("\n") == "";
      Regroup(Ink(paragraph), [], []);
    } else {
      Regroup(Ink(line), [], []);
    }
  }

  lemma {:induction false} GrownOk(paragraph: string, line: string)
    requires ParagraphOk(paragraph)
    requires Trimmed(line) && line != [] && MarkdownHeading(line).None?
    ensures ParagraphOk(Grown(paragraph, line))
  {
    if |paragraph| > 0 {
      ParagraphGrows(paragraph, line);
    }
  }

  /** Any other line joins the paragraph. */
  lemma {:induction false} TextLine(blocks: seq<TextBlock>, paragraph: string, section: string, ink: string,
                                    line: string)
    requires Parsed(blocks, paragraph, section, ink)
    requires Trimmed(line) && line != [] && MarkdownHeading(line).None?
    ensures Parsed(blocks, Grown(paragraph, line), section, ink + Ink(line))
  {
    InkGrown(paragraph, line);
    GrownOk(paragraph, line);
    Regroup(BlocksInk(blocks), Ink(paragraph), Ink(line));
  }

  // ---------- what the blocks say ----------

  ghost predicate IsHeading(line: string) {
    exists level: nat :: HashLine(line, level)
  }

  /** A line of a paragraph: neither blank nor a heading. */
  ghost predicate PlainLine(line: string) {
    Trim(line) != "" && !IsHeading(Trim(line))
  }

  ghost predicate PlainLines(lines: seq<string>, from: nat, end: nat)
    requires end <= |lines|
  {
    forall k :: from <= k < end ==> PlainLine(lines[k])
  }

  predicate BlankLines(lines: seq<string>, from: nat, end: nat)
    requires end <= |lines|
  {
    forall k :: from <= k < end ==> Trim(lines[k]) == ""
  }

  function Trims(lines: seq<string>): (r: seq<string>)
    ensures |r| == |lines|
    ensures forall k :: 0 <= k < |r| ==> r[k] == Trim(lines[k])
  {
    if lines == [] then [] else Trims(lines[..|lines| - 1]) + [Trim(lines[|lines| - 1])]
  }

  /** A heading line on its own, or all the plain lines between two others, each trimmed. */
  ghost predicate Says(text: string, lines: seq<string>, from: nat, end: nat) {
    && from < end <= |lines|
    && (|| (end == from + 1 && IsHeading(Trim(lines[from])) && text == Trim(lines[from]))
        || (&& PlainLines(lines, from, end) && text == Join(Trims(lines[from..end]), "\n")
            && (from > 0 ==> !PlainLine(lines[from - 1])) && (end < |lines| ==> !PlainLine(lines[end]))))
  }

  ghost predicate Last(text: string, lines: seq<string>, from: nat, end: nat, i: nat) {
    Says(text, lines, from, end) && end <= i <= |lines| && BlankLines(lines, end, i)
  }

  /** The blocks are what the lines before `i` say, one after the other, with blank lines between them. */
  ghost predicate Told(blocks: seq<TextBlock>, lines: seq<string>, i: nat) {
    i <= |lines| &&
    if blocks == [] then BlankLines(lines, 0, i)
    else
      var before, last := blocks[..|blocks| - 1], blocks[|blocks| - 1].content;
      exists from: nat, end: nat :: Last(last, lines, from, end, i) && Told(before, lines, from)
  }

  /** The parser finds the headings: with their text, which is never empty. */
  lemma HeadingFound(line: string)
    requires Trimmed(line)
    ensures MarkdownHeading(line).Some? <==> IsHeading(line)
    ensures forall level: nat :: HashLine(line, level) && MarkdownHeading(line).Some? ==>
              TextBehind(line, HashMark(level), MarkdownHeading(line).value) && MarkdownHeading(line).value != ""
  {
    hide Trim, Trimmed, TextBehind;
    var count := HashCount(line);
    if MarkdownHeading(line).Some? {
      assert HashLine(line, count);
    }
    forall level: nat | HashLine(line, level)
      ensures MarkdownHeading(line).Some? && TextBehind(line, HashMark(level), MarkdownHeading(line).value)
      ensures MarkdownHeading(line).value != ""
    {
      HashRun(line, level);
      HeadingText(line, level);
      BehindMark(line, level);
    }
  }

  lemma HeadingText(line: string, level: nat)
    requires Trimmed(line) && HashLine(line, level)
    ensures Trim(line[level..]) != ""
  {
    var rest := line[level..];
    assert rest[|rest| - 1] == line[|line| - 1];
    TrimKeepsInk(rest);
  }

  /** The lines `start..i` wait for their block. */
  ghost predicate Waiting(blocks: seq<TextBlock>, paragraph: string, lines: seq<string>, start: nat, i: nat) {
    && start <= i <= |lines| && Told(blocks, lines, start)
    && PlainLines(lines, start, i) && paragraph == Join(Trims(lines[start..i]), "\n")
    && (start > 0 ==> !PlainLine(lines[start - 1]))
  }

  lemma {:induction false} ParagraphText(lines: seq<string>, start: nat, i: nat)
    requires start < i <= |lines| && PlainLines(lines, start, i)
    ensures Join(Trims(lines[start..i]), "\n") != ""
  {
    var parts := Trims(lines[start..i]);
    assert parts[0] == Trim(lines[start]) && PlainLine(lines[start]);
  }

  lemma {:induction false} ToldNext(blocks: seq<TextBlock>, block: TextBlock, lines: seq<string>, from: nat, end: nat)
    requires Told(blocks, lines, from) && Says(block.content, lines, from, end)
    ensures Told(blocks + [block], lines, end)
  {
    assert end <= |lines| && BlankLines(lines, end, end);
    hide Says, BlankLines;
    var all := blocks + [block];
    assert all[..|all| - 1] == blocks;
    assert Last(all[|all| - 1].content, lines, from, end, end);
  }

  lemma {:induction false} ToldBlank(blocks: seq<TextBlock>, lines: seq<string>, i: nat)
    requires Told(blocks, lines, i) && i < |lines| && Trim(lines[i]) == ""
    ensures Told(blocks, lines, i + 1)
  {
    hide Says, Trim;
    if blocks != [] {
      var text, before := blocks[|blocks| - 1].content, blocks[..|blocks| - 1];
      var from: nat, end: nat :| Last(text, lines, from, end, i) && Told(before, lines, from);
      assert Last(text, lines, from, end, i + 1);
    }
  }

  /** Closing a paragraph tells the lines up to here. */
  lemma {:induction false} FlushTold(blocks: seq<TextBlock>, paragraph: string, section: string, lines: seq<string>,
                                     start: nat, i: nat)
    requires Waiting(blocks, paragraph, lines, start, i) && ParagraphOk(paragraph)
    requires i < |lines| ==> !PlainLine(lines[i])
    ensures Told(Flushed(blocks, paragraph, section), lines, i)
  {
    TrimOfTrimmed(paragraph);
    hide Trim, Join, Told, PlainLine, MarkdownHeading;
    if start == i {
      assert lines[start..i] == [];
      NothingJoined();
    } else {
      ParagraphText(lines, start, i);
      ToldNext(blocks, TextBlock(paragraph, section), lines, start, i);
    }
  }

  lemma NothingJoined()
    ensures Join([], "\n") == ""
  {
  }

  lemma {:induction false} WaitingNow(blocks: seq<TextBlock>, lines: seq<string>, i: nat)
    requires i <= |lines| && Told(blocks, lines, i) && (i > 0 ==> !PlainLine(lines[i - 1]))
    ensures Waiting(blocks, "", lines, i, i)
  {
    assert lines[i..i] == [];
    NothingJoined();
    hide Told, Join, PlainLine;
  }

  lemma {:induction false} HeadingTold(blocks: seq<TextBlock>, paragraph: string, section: string, lines: seq<string>,
                                       start: nat, i: nat, heading: string)
    requires Waiting(blocks, paragraph, lines, start, i) && ParagraphOk(paragraph)
    requires i < |lines| && MarkdownHeading(Trim(lines[i])) == Some(heading)
    ensures Waiting(Flushed(blocks, paragraph, section) + [TextBlock(Trim(lines[i]), heading)], "", lines, i + 1, i + 1)
  {
    HeadingFound(Trim(lines[i]));
    hide Waiting, ParagraphOk, Told, Flushed, IsHeading, Trim, MarkdownHeading;
    FlushTold(blocks, paragraph, section, lines, start, i);
    var flushed := Flushed(blocks, paragraph, section);
    ToldNext(flushed, TextBlock(Trim(lines[i]), heading), lines, i, i + 1);
    WaitingNow(flushed + [TextBlock(Trim(lines[i]), heading)], lines, i + 1);
  }

  lemma {:induction false} BlankTold(blocks: seq<TextBlock>, paragraph: string, section: string, lines: seq<string>,
                                     start: nat, i: nat)
    requires Waiting(blocks, paragraph, lines, start, i) && ParagraphOk(paragraph) && i < |lines| && Trim(lines[i]) == ""
    ensures Waiting(Flushed(blocks, paragraph, section), "", lines, i + 1, i + 1)
  {
    hide Waiting, ParagraphOk, Told, Flushed, IsHeading, Trim;
    FlushTold(blocks, paragraph, section, lines, start, i);
    ToldBlank(Flushed(blocks, paragraph, section), lines, i);
    WaitingNow(Flushed(blocks, paragraph, section), lines, i + 1);
  }

  lemma {:induction false} JoinLast(parts: seq<string>, last: string, sep: string)
    requires parts != []
    ensures Join(parts + [last], sep) == Join(parts, sep) + sep + last
  {
    if |parts| == 1 {
      assert (parts + [last])[1..] == [last];
    } else {
      assert (parts + [last])[1..] == parts[1..] + [last];
      JoinLast(parts[1..], last, sep);
      Regroup(parts[0] + sep, Join(parts[1..], sep), sep);
      Regroup(parts[0] + sep, Join(parts[1..], sep) + sep, last);
    }
  }

  /** One more plain line. */
  lemma {:induction false} GrownText(lines: seq<string>, start: nat, i: nat)
    requires start <= i < |lines| && PlainLines(lines, start, i)
    ensures Join(Trims(lines[start..i + 1]), "\n") == Grown(Join(Trims(lines[start..i]), "\n"), Trim(lines[i]))
  {
    hide PlainLine, Trim, Grown;
    var parts := Trims(lines[start..i]);
    assert Trims(lines[start..i + 1]) == parts + [Trim(lines[i])];
    if start == i {
      assert lines[start..i] == [] && parts + [Trim(lines[i])] == [Trim(lines[i])];
      GrownFirst(Trim(lines[i]));
    } else {
      ParagraphText(lines, start, i);
      hide Join;
      JoinLast(parts, Trim(lines[i]), "\n");
      GrownMore(Join(parts, "\n"), Trim(lines[i]));
    }
  }

  lemma GrownFirst(line: string)
    ensures Grown("", line) == line && Join([], "\n") == "" && Join([line], "\n") == line
  {
  }

  lemma GrownMore(paragraph: string, line: string)
    requires paragraph != ""
    ensures Grown(paragraph, line) == paragraph + "\n" + line
  {
  }

  lemma {:induction false} TextTold(blocks: seq<TextBlock>, paragraph: string, lines: seq<string>, start: nat, i: nat)
    requires Waiting(blocks, paragraph, lines, start, i)
    requires i < |lines| && Trim(lines[i]) != "" && MarkdownHeading(Trim(lines[i])).None?
    ensures Waiting(blocks, Grown(paragraph, Trim(lines[i])), lines, start, i + 1)
  {
    HeadingFound(Trim(lines[i]));
    assert PlainLine(lines[i]);
    hide Told, PlainLine, Trim, MarkdownHeading, Join, Trims, Grown;
    GrownText(lines, start, i);
  }

  ghost predicate LastHeading(blocks: seq<TextBlock>, j: nat, k: int)
    requires j < |blocks|
  {
    0 <= k <= j && IsHeading(blocks[k].content) && forall m :: k < m <= j ==> !IsHeading(blocks[m].content)
  }

  ghost predicate HeadingSays(line: string, text: string) {
    text != "" && exists level: nat :: HashLine(line, level) && TextBehind(line, HashMark(level), text)
  }

  lemma {:induction false} OwnHeading(blocks: seq<TextBlock>, j: nat)
    requires BlocksTrimmed(blocks) && j < |blocks|
    ensures MarkdownHeading(blocks[j].content).Some? <==> IsHeading(blocks[j].content)
    ensures MarkdownHeading(blocks[j].content).Some? ==> HeadingSays(blocks[j].content, MarkdownHeading(blocks[j].content).value)
  {
    assert BlockTrimmed(blocks[j]);
    HeadingFound(blocks[j].content);
    hide MarkdownHeading, TextBehind, HashLine;
  }

  /** The section is the text of the last heading up to block j, or empty. */
  ghost predicate HeadedBy(blocks: seq<TextBlock>, j: nat, section: string)
    requires j < |blocks|
  {
    if forall k :: 0 <= k <= j ==> !IsHeading(blocks[k].content) then section == ""
    else exists k :: LastHeading(blocks, j, k) && HeadingSays(blocks[k].content, section)
  }

  lemma {:induction false} HeadedOn(blocks: seq<TextBlock>, j: nat, section: string)
    requires 0 < j < |blocks| && HeadedBy(blocks, j - 1, section) && !IsHeading(blocks[j].content)
    ensures HeadedBy(blocks, j, section)
  {
    hide IsHeading, HeadingSays;
    var i := j - 1;
    if k :| LastHeading(blocks, i, k) && HeadingSays(blocks[k].content, section) {
      assert LastHeading(blocks, j, k);
    }
  }

  lemma {:induction false} SectionIsHeading(blocks: seq<TextBlock>, j: nat)
    requires BlocksTrimmed(blocks) && j < |blocks|
    ensures HeadedBy(blocks, j, SectionAt(blocks, j))
  {
    OwnHeading(blocks, j);
    hide MarkdownHeading, IsHeading, HeadingSays, BlocksTrimmed;
    if IsHeading(blocks[j].content) {
      assert LastHeading(blocks, j, j);
    } else if j > 0 {
      SectionIsHeading(blocks, j - 1);
      HeadedOn(blocks, j, SectionAt(blocks, j));
    }
  }

  /** The lines of the content, the blocks they say, and the heading each block stands under. */
  lemma {:induction false} BlocksMean(blocks: seq<TextBlock>)
    requires BlocksOk(blocks)
    ensures forall j :: 0 <= j < |blocks| ==> HeadedBy(blocks, j, blocks[j].section)
  {
    hide HeadedBy, SectionAt, BlocksTrimmed;
    forall j | 0 <= j < |blocks| ensures HeadedBy(blocks, j, blocks[j].section) {
      SectionIsHeading(blocks, j);
    }
  }

  /** Headings and paragraphs, trimmed, each under the last heading; no text is lost. */
  method ParseBlocks(content: string) returns (blocks: seq<TextBlock>, ghost lines: seq<string>)
    ensures LinesAre(content, lines) && Told(blocks, lines, |lines|)
    ensures BlocksOk(blocks) && forall j :: 0 <= j < |blocks| ==> HeadedBy(blocks, j, blocks[j].section)
    ensures BlocksInk(blocks) == Ink(content)
  {
    var text := ReplaceCr(ReplaceCrLf(content));
    var pieces := Split(text, '\n');
    lines := pieces;
    blocks := ParseLines(pieces);
    hide *;
    BlocksMean(blocks);
    ContentLines(content);
    assert InkAll(pieces) == Ink(content) by {
      InkReplaceCrLf(content);
      InkReplaceCr(ReplaceCrLf(content));
      NewlineIsSpace();
      InkSplit(text, '\n');
    }
  }

  lemma NewlineIsSpace()
    ensures IsSpace('\n')
  {
  }

  lemma ContentLines(content: string)
    ensures LinesAre(content, Split(ReplaceCr(ReplaceCrLf(content)), '\n'))
  {
    var ends := LinesFound(content);
    hide Split, ReplaceCr, ReplaceCrLf, EndsAre;
    assert EndsAre(content, Split(Normal(content), '\n'), ends);
  }

  lemma {:induction false} InkUpTo(lines: seq<string>, i: nat)
    requires i < |lines|
    ensures InkAll(lines[..i + 1]) == InkAll(lines[..i]) + Ink(Trim(lines[i]))
  {
    assert lines[..i + 1] == lines[..i] + [lines[i]];
    LinesInkSnoc(lines[..i], lines[i]);
    InkTrim(lines[i]);
  }

  /** One line: it closes the paragraph, as a heading of its own or blank, or joins it. */
  method ParseLine(blocks0: seq<TextBlock>, paragraph0: string, section0: string, lines: seq<string>, i: nat, ghost start0: nat)
    returns (blocks: seq<TextBlock>, paragraph: string, section: string, ghost start: nat)
    requires i < |lines| && Parsed(blocks0, paragraph0, section0, InkAll(lines[..i]))
    requires Waiting(blocks0, paragraph0, lines, start0, i)
    ensures Parsed(blocks, paragraph, section, InkAll(lines[..i + 1])) && Waiting(blocks, paragraph, lines, start, i + 1)
  {
    hide *;
    blocks, paragraph, section, start := blocks0, paragraph0, section0, start0;
    var trimmed := Trim(lines[i]);
    ghost var ink := InkAll(lines[..i]);
    ParagraphIsOk(blocks, paragraph, section, ink);
    InkUpTo(lines, i);
    var heading := MarkdownHeading(trimmed);
    if heading.Some? {
      HeadingLine(blocks, paragraph, section, ink, trimmed, heading.value);
      HeadingTold(blocks, paragraph, section, lines, start, i, heading.value);
      blocks := Flushed(blocks, paragraph, section) + [TextBlock(trimmed, heading.value)];
      section, paragraph, start := heading.value, [], i + 1;
    } else if trimmed == [] {
      BlankLine(blocks, paragraph, section, ink);
      BlankTold(blocks, paragraph, section, lines, start, i);
      blocks := Flushed(blocks, paragraph, section);
      paragraph, start := [], i + 1;
    } else {
      TextLine(blocks, paragraph, section, ink, trimmed);
      TextTold(blocks, paragraph, lines, start, i);
      paragraph := Grown(paragraph, trimmed);
    }
  }

  /** The loop over the lines. */
  method ParseLines(lines: seq<string>) returns (blocks: seq<TextBlock>)
    ensures Told(blocks, lines, |lines|) && BlocksOk(blocks) && BlocksInk(blocks) == InkAll(lines)
  {
    var section, paragraph: string := [], [];
    blocks := [];
    ghost var start: nat := 0;
    assert Parsed(blocks, paragraph, section, InkAll(lines[..0]));
    assert Told([], lines, 0);
    hide *;
    WaitingNow([], lines, 0);
    for i := 0 to |lines|
      invariant Parsed(blocks, paragraph, section, InkAll(lines[..i]))
      invariant Waiting(blocks, paragraph, lines, start, i)
    {
      blocks, paragraph, section, start := ParseLine(blocks, paragraph, section, lines, i, start);
    }
    assert lines[..|lines|] == lines;
    ParagraphIsOk(blocks, paragraph, section, InkAll(lines));
    FlushTold(blocks, paragraph, section, lines, start, |lines|);
    LastFlush(blocks, paragraph, section, InkAll(lines));
    blocks := Flushed(blocks, paragraph, section);
  }

  lemma ParagraphIsOk(blocks: seq<TextBlock>, paragraph: string, section: string, ink: string)
    requires Parsed(blocks, paragraph, section, ink)
    ensures ParagraphOk(paragraph)
  {
  }

  lemma LastFlush(blocks: seq<TextBlock>, paragraph: string, section: string, ink: string)
    requires Parsed(blocks, paragraph, section, ink)
    ensures BlocksOk(Flushed(blocks, paragraph, section)) && BlocksInk(Flushed(blocks, paragraph, section)) == ink
  {
    FlushedOk(blocks, paragraph, section);
  }
}
