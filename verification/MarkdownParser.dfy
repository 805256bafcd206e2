/** The Markdown parser: one pass over the lines, against the segments of the document. */
module MarkdownParser {
  import opened Text
  import opened MarkdownLines
  import opened MarkdownSections

  datatype Ast = Ast(title: string, blocks: seq<Block>, unclosedFence: bool)

  datatype ParseError = BlockLimitExceeded | InvalidFile

  datatype Parsed = Document(ast: Ast) | Failed(error: ParseError)

  /**
   * A block as the parser emits it: `order` numbers it, `rows` are the cell texts of a table, row by row (a cell's column
   * is its place), `language` is the language of a code block.
   */
  datatype Block = Block(kind: Kind, text: string, level: nat, order: nat, path: seq<string>, language: string,
                         rows: seq<seq<string>>)

  function NewBlock(kind: Kind, text: string, level: nat, order: nat): Block {
    Block(kind, text, level, order, [], "", [])
  }

  function NormalNewlines(s: string): string {
    if s == [] then []
    else if |s| >= 2 && s[0] == '\r' && s[1] == '\n' then ['\n'] + NormalNewlines(s[2..])
    else [s[0]] + NormalNewlines(s[1..])
  }

  // ---------- what each segment becomes ----------

  function CellTexts(cells: seq<string>, n: nat): seq<string>
    requires n <= |cells|
  {
    if n == 0 then [] else CellTexts(cells, n - 1) + [Trim(cells[n - 1])]
  }

  function TrimBars(s: string): string
    decreases |s|
  {
    if s == [] then []
    else if s[0] == '|' then TrimBars(s[1..])
    else if s[|s| - 1] == '|' then TrimBars(s[..|s| - 1])
    else s
  }

  function RowOf(line: string): seq<string> {
    var cells := Split(TrimBars(Trim(line)), '|');
    CellTexts(cells, |cells|)
  }

  /** The rows of the table lines `from..to`; separator lines give none. */
  function TableRows(lines: seq<string>, from: nat, end: nat): seq<seq<string>>
    requires from <= end <= |lines|
    decreases end
  {
    if from == end then []
    else if IsTableSeparator(lines[end - 1]) then TableRows(lines, from, end - 1)
    else TableRows(lines, from, end - 1) + [RowOf(lines[end - 1])]
  }

  function Language(line: string): string {
    var trimmed := Trim(line);
    Trim(if HasPrefix(trimmed, "```") then trimmed[3..] else trimmed)
  }

  function CodeBlock(lines: seq<string>, open: nat, close: nat, order: nat): Block
    requires open < close <= |lines|
  {
    NewBlock(CodeKind, Join(lines[open + 1..close], "\n"), 0, order).(language := Language(lines[open]))
  }

  predicate InBounds(segment: Segment, lines: seq<string>) {
    match segment
    case Blank(at) => at < |lines|
    case Fenced(open, close) => open < close < |lines|
    case Unclosed(open) => open < |lines|
    case Table(from, to) => from <= to <= |lines|
    case Single(at) => at < |lines|
  }

  predicate AllInBounds(segments: seq<Segment>, lines: seq<string>) {
    segments == [] || (InBounds(segments[|segments| - 1], lines) && AllInBounds(segments[..|segments| - 1], lines))
  }

  function HeadingOf(segment: Segment, lines: seq<string>): seq<Heading>
    requires InBounds(segment, lines)
  {
    if segment.Single? && LineType(Trim(lines[segment.at])).kind == HeadingKind then
      [Heading(LineType(Trim(lines[segment.at])).level, LineType(Trim(lines[segment.at])).text)]
    else []
  }

  /** The headings of the segments, in order. */
  function Headings(segments: seq<Segment>, lines: seq<string>): seq<Heading>
    requires AllInBounds(segments, lines)
  {
    if segments == [] then []
    else Headings(segments[..|segments| - 1], lines) + HeadingOf(segments[|segments| - 1], lines)
  }

  /** The block of a segment that is not blank; a code block that is never closed gets no section. */
  function BlockOf(segment: Segment, lines: seq<string>, path: seq<string>, order: nat): Block
    requires InBounds(segment, lines) && !segment.Blank?
  {
    match segment
    case Fenced(open, close) => CodeBlock(lines, open, close, order).(path := path)
    case Unclosed(open) => CodeBlock(lines, open, |lines|, order)
    case Table(from, to) => NewBlock(TableKind, "", 0, order).(rows := TableRows(lines, from, to), path := path)
    case Single(at) =>
      var line := LineType(Trim(lines[at]));
      NewBlock(line.kind, line.text, line.level, order).(path := path)
  }

  /** The blocks of the segments: numbered from 1, each under the headings up to and including its own. */
  function BlocksOf(segments: seq<Segment>, lines: seq<string>): seq<Block>
    requires AllInBounds(segments, lines)
  {
    if segments == [] then []
    else
      var before := BlocksOf(segments[..|segments| - 1], lines);
      var last := segments[|segments| - 1];
      if last.Blank? then before
      else before + [BlockOf(last, lines, LookupPath(Headings(segments, lines)), |before| + 1)]
  }

  /** Where the parser compares the number of blocks with the limit: at fences and at single lines, not at tables. */
  predicate Fits(segment: Segment, count: nat, maxBlocks: nat) {
    match segment
    case Blank(_) => true
    case Fenced(_, _) => count + 1 <= maxBlocks
    case Unclosed(_) => count <= maxBlocks
    case Table(_, _) => true
    case Single(_) => count + 1 <= maxBlocks
  }

  predicate WithinLimit(segments: seq<Segment>, lines: seq<string>, maxBlocks: nat)
    requires AllInBounds(segments, lines)
  {
    segments == [] ||
    (&& WithinLimit(segments[..|segments| - 1], lines, maxBlocks)
     && Fits(segments[|segments| - 1], |BlocksOf(segments[..|segments| - 1], lines)|, maxBlocks))
  }

  /** The title after the headings: the first that differs from the requested title, when there was no title of its own. */
  function TitleAfter(title: string, requested: string, headings: seq<Heading>): string {
    if headings == [] then title
    else
      var before := TitleAfter(title, requested, headings[..|headings| - 1]);
      if before == "" || before == requested then headings[|headings| - 1].text else before
  }

  predicate EndsUnclosed(segments: seq<Segment>) {
    segments != [] && segments[|segments| - 1].Unclosed?
  }

  lemma {:induction false} NextInBounds(lines: seq<string>, i: nat)
    requires i < |lines|
    ensures InBounds(Next(lines, i), lines) && i < End(Next(lines, i), lines) <= |lines|
  {
  }

  lemma {:induction false} BoundsConcat(a: seq<Segment>, b: seq<Segment>, lines: seq<string>)
    requires AllInBounds(a, lines) && AllInBounds(b, lines)
    ensures AllInBounds(a + b, lines)
  {
    if b == [] {
      assert a + b == a;
    } else {
      assert (a + b)[..|a + b| - 1] == a + b[..|b| - 1];
      BoundsConcat(a, b[..|b| - 1], lines);
    }
  }

  lemma {:induction false} SegmentsInBounds(lines: seq<string>, i: nat)
    requires i <= |lines|
    ensures AllInBounds(Segments(lines, i), lines)
    decreases |lines| - i
  {
    if i < |lines| {
      var next := Next(lines, i);
      NextInBounds(lines, i);
      SegmentsInBounds(lines, End(next, lines));
      assert AllInBounds([next], lines) by { assert [next][..0] == []; }
      BoundsConcat([next], Segments(lines, End(next, lines)), lines);
    }
  }

  /** The document the lines stand for. */
  ghost function Meaning(lines: seq<string>, request: Request): Parsed {
    SegmentsInBounds(lines, 0);
    var segments := Segments(lines, 0);
    var p := StateOf(segments, lines, request);
    if !WithinLimit(segments, lines, request.maxBlocks) then Failed(BlockLimitExceeded)
    else if p.blocks == [] then Failed(InvalidFile)
    else Document(Ast(p.title, p.blocks, EndsUnclosed(segments)))
  }

  ghost predicate Means(lines: seq<string>, request: Request, r: Parsed) {
    r == Meaning(lines, request)
  }

  // ---------- the segments read so far ----------

  datatype Progress = Progress(blocks: seq<Block>, section: seq<string>, title: string)

  datatype Request = Request(title: string, requested: string, maxBlocks: nat)

  function StateOf(segments: seq<Segment>, lines: seq<string>, request: Request): Progress
    requires AllInBounds(segments, lines)
  {
    Progress(BlocksOf(segments, lines), LookupPath(Headings(segments, lines)),
             TitleAfter(request.title, request.requested, Headings(segments, lines)))
  }

  /** The segments are the first ones of the document and end before line `i`. */
  ghost predicate Tiled(segments: seq<Segment>, lines: seq<string>, i: nat) {
    && i <= |lines|
    && AllInBounds(segments, lines)
    && segments + Segments(lines, i) == Segments(lines, 0)
    && !EndsUnclosed(segments)
  }

  /** The state is what the segments stand for, and they are within the limit. */
  ghost predicate Stands(segments: seq<Segment>, lines: seq<string>, request: Request, p: Progress) {
    && AllInBounds(segments, lines)
    && WithinLimit(segments, lines, request.maxBlocks)
    && p == StateOf(segments, lines, request)
  }

  ghost predicate ReadTo(lines: seq<string>, i: nat, request: Request, p: Progress) {
    exists segments :: Tiled(segments, lines, i) && Stands(segments, lines, request, p)
  }

  /** The segments after one more. */
  lemma {:induction false} TileNext(segments: seq<Segment>, lines: seq<string>, i: nat)
    requires Tiled(segments, lines, i) && i < |lines|
    ensures var next := Next(lines, i);
            && InBounds(next, lines) && i < End(next, lines) <= |lines|
            && AllInBounds(segments + [next], lines)
            && segments + [next] + Segments(lines, End(next, lines)) == Segments(lines, 0)
            && (!next.Unclosed? ==> Tiled(segments + [next], lines, End(next, lines)))
  {
    var next := Next(lines, i);
    NextInBounds(lines, i);
    assert (segments + [next])[..|segments|] == segments;
    Regroup(segments, [next], Segments(lines, End(next, lines)));
  }

  lemma {:induction false} HeadingsNext(segments: seq<Segment>, lines: seq<string>, next: Segment)
    requires AllInBounds(segments, lines) && InBounds(next, lines)
    ensures AllInBounds(segments + [next], lines)
    ensures Headings(segments + [next], lines) == Headings(segments, lines) + HeadingOf(next, lines)
  {
    assert (segments + [next])[..|segments|] == segments;
  }

  lemma {:induction false} BlocksNext(segments: seq<Segment>, lines: seq<string>, next: Segment, path: seq<string>)
    requires AllInBounds(segments, lines) && InBounds(next, lines) && AllInBounds(segments + [next], lines)
    requires path == LookupPath(Headings(segments + [next], lines))
    ensures BlocksOf(segments + [next], lines)
            == if next.Blank? then BlocksOf(segments, lines)
               else BlocksOf(segments, lines) + [BlockOf(next, lines, path, |BlocksOf(segments, lines)| + 1)]
  {
    hide BlockOf, InBounds, LookupPath, Headings;
    assert (segments + [next])[..|segments|] == segments;
  }

  lemma {:induction false} LimitNext(segments: seq<Segment>, lines: seq<string>, next: Segment, maxBlocks: nat)
    requires AllInBounds(segments, lines) && AllInBounds(segments + [next], lines)
    ensures WithinLimit(segments + [next], lines, maxBlocks) <==>
            WithinLimit(segments, lines, maxBlocks) && Fits(next, |BlocksOf(segments, lines)|, maxBlocks)
  {
    assert (segments + [next])[..|segments|] == segments;
  }

  lemma {:induction false} StandsBlank(segments: seq<Segment>, lines: seq<string>, request: Request, p: Progress,
                                       next: Segment)
    requires Stands(segments, lines, request, p) && InBounds(next, lines) && next.Blank?
    ensures Stands(segments + [next], lines, request, p)
  {
    HeadingsNext(segments, lines, next);
    Regroup(Headings(segments, lines), [], []);
    BlocksNext(segments, lines, next, LookupPath(Headings(segments, lines)));
    LimitNext(segments, lines, next, request.maxBlocks);
  }

  function WithBlock(p: Progress, block: Block): Progress {
    p.(blocks := p.blocks + [block])
  }

  ghost predicate IsBlockOf(block: Block, segment: Segment, lines: seq<string>, path: seq<string>, order: nat)
    requires InBounds(segment, lines) && !segment.Blank?
  {
    block == BlockOf(segment, lines, path, order)
  }

  lemma {:induction false} StandsPlain(segments: seq<Segment>, lines: seq<string>, request: Request, p: Progress,
                                       next: Segment, block: Block)
    requires Stands(segments, lines, request, p) && InBounds(next, lines) && HeadingOf(next, lines) == []
    requires Fits(next, |p.blocks|, request.maxBlocks) && !next.Blank?
    requires IsBlockOf(block, next, lines, p.section, |p.blocks| + 1)
    ensures Stands(segments + [next], lines, request, WithBlock(p, block))
  {
    HeadingsNext(segments, lines, next);
    Regroup(Headings(segments, lines), [], []);
    BlocksNext(segments, lines, next, p.section);
    LimitNext(segments, lines, next, request.maxBlocks);
  }

  /** A segment without a heading leaves section and title alone. */
  lemma {:induction false} PlainSegment(lines: seq<string>, i: nat, request: Request, p: Progress, next: Segment,
                                        block: Block)
    requires i < |lines| && ReadTo(lines, i, request, p) && next == Next(lines, i)
    requires InBounds(next, lines) && HeadingOf(next, lines) == []
    requires Fits(next, |p.blocks|, request.maxBlocks) && !next.Unclosed? && !next.Blank?
    requires IsBlockOf(block, next, lines, p.section, |p.blocks| + 1)
    ensures ReadTo(lines, End(next, lines), request, WithBlock(p, block))
  {
    hide Tiled, Stands, IsBlockOf, Fits, HeadingOf, InBounds, Next;
    var segments :| Tiled(segments, lines, i) && Stands(segments, lines, request, p);
    TileNext(segments, lines, i);
    StandsPlain(segments, lines, request, p, next, block);
  }

  lemma {:induction false} TitleNext(title0: string, requested: string, headings: seq<Heading>, heading: Heading)
    ensures var title := TitleAfter(title0, requested, headings);
            TitleAfter(title0, requested, headings + [heading]) == NextTitle(title, requested, heading.text)
  {
    assert (headings + [heading])[..|headings|] == headings;
  }

  function NextTitle(title: string, requested: string, text: string): string {
    if title == "" || title == requested then text else title
  }

  lemma {:induction false} StandsHeading(segments: seq<Segment>, lines: seq<string>, request: Request, p: Progress,
                                         i: nat, line: Line, section: seq<string>)
    requires Stands(segments, lines, request, p) && i < |lines|
    requires line == LineType(Trim(lines[i])) && line.kind == HeadingKind
    requires line.level >= 1 && Replaces(section, p.section, line.text, line.level)
    requires |p.blocks| + 1 <= request.maxBlocks
    ensures Stands(segments + [Single(i)], lines, request,
                   Progress(p.blocks + [SingleIn(p, line, section)], section, NextTitle(p.title, request.requested, line.text)))
  {
    var heading := Heading(line.level, line.text);
    assert HeadingOf(Single(i), lines) == [heading];
    hide LineType, Trim, Replaces, BlockOf;
    HeadingsNext(segments, lines, Single(i));
    StackIsLookup(Headings(segments, lines), line.level, line.text, section);
    BlocksNext(segments, lines, Single(i), section);
    LimitNext(segments, lines, Single(i), request.maxBlocks);
    TitleNext(request.title, request.requested, Headings(segments, lines), heading);
  }

  /** A heading moves section and title on. */
  lemma {:induction false} HeadingSegment(lines: seq<string>, i: nat, request: Request, p: Progress, line: Line,
                                          section: seq<string>)
    requires i < |lines| && ReadTo(lines, i, request, p)
    requires Next(lines, i) == Single(i) && line == LineType(Trim(lines[i])) && line.kind == HeadingKind
    requires line.level >= 1 && Replaces(section, p.section, line.text, line.level)
    requires |p.blocks| + 1 <= request.maxBlocks
    ensures ReadTo(lines, i + 1, request,
                   Progress(p.blocks + [SingleIn(p, line, section)], section, NextTitle(p.title, request.requested, line.text)))
  {
    hide Next, LineType, Trim, Replaces, BlockOf, NextTitle, Tiled, Stands;
    var segments :| Tiled(segments, lines, i) && Stands(segments, lines, request, p);
    TileNext(segments, lines, i);
    StandsHeading(segments, lines, request, p, i, line, section);
  }

  lemma {:induction false} WithinPrefix(a: seq<Segment>, b: seq<Segment>, lines: seq<string>, maxBlocks: nat)
    requires AllInBounds(a, lines) && AllInBounds(a + b, lines) && WithinLimit(a + b, lines, maxBlocks)
    ensures WithinLimit(a, lines, maxBlocks)
  {
    if b == [] {
      assert a + b == a;
    } else {
      assert (a + b)[..|a + b| - 1] == a + b[..|b| - 1];
      WithinPrefix(a, b[..|b| - 1], lines, maxBlocks);
    }
  }

  /** A segment over the limit fails the document, whatever follows. */
  lemma {:induction false} LimitFails(lines: seq<string>, i: nat, request: Request, p: Progress)
    requires i < |lines| && ReadTo(lines, i, request, p) && !Fits(Next(lines, i), |p.blocks|, request.maxBlocks)
    ensures Means(lines, request, Failed(BlockLimitExceeded))
  {
    var segments :| Tiled(segments, lines, i) && Stands(segments, lines, request, p);
    var next := Next(lines, i);
    TileNext(segments, lines, i);
    LimitNext(segments, lines, next, request.maxBlocks);
    SegmentsInBounds(lines, 0);
    if WithinLimit(Segments(lines, 0), lines, request.maxBlocks) {
      WithinPrefix(segments + [next], Segments(lines, End(next, lines)), lines, request.maxBlocks);
    }
  }

  lemma {:induction false} ReadNothing(lines: seq<string>, request: Request)
    ensures ReadTo(lines, 0, request, Progress([], [], request.title))
  {
    assert [] + Segments(lines, 0) == Segments(lines, 0);
    assert Tiled([], lines, 0);
    assert Stands([], lines, request, Progress([], [], request.title));
  }

  lemma {:induction false} ReadAll(lines: seq<string>, request: Request, p: Progress)
    requires ReadTo(lines, |lines|, request, p)
    ensures Means(lines, request, if p.blocks == [] then Failed(InvalidFile) else Document(Ast(p.title, p.blocks, false)))
  {
    var segments :| Tiled(segments, lines, |lines|) && Stands(segments, lines, request, p);
    Regroup(segments, [], []);
  }

  // ---------- fences ----------

  /** An open fence: the lines since it are code. */
  ghost predicate InFence(lines: seq<string>, open: nat, i: nat, codeLines: seq<string>, language: string) {
    && open < i <= |lines| && IsFence(lines[open])
    && FenceFrom(lines, open + 1) == FenceFrom(lines, i)
    && codeLines == lines[open + 1..i]
    && language == Language(lines[open])
  }

  lemma {:induction false} FenceOpened(lines: seq<string>, i: nat)
    requires i < |lines| && IsFence(lines[i])
    ensures InFence(lines, i, i + 1, [], Language(lines[i]))
    ensures Next(lines, i).Fenced? || Next(lines, i).Unclosed?
  {
    assert lines[i + 1..i + 1] == [];
  }

  lemma {:induction false} CodeLineKeeps(lines: seq<string>, open: nat, i: nat, codeLines: seq<string>,
                                         language: string)
    requires InFence(lines, open, i, codeLines, language) && i < |lines| && !IsFence(lines[i])
    ensures InFence(lines, open, i + 1, codeLines + [lines[i]], language)
  {
    assert lines[open + 1..i + 1] == lines[open + 1..i] + [lines[i]];
  }

  function NewCode(codeLines: seq<string>, language: string, order: nat): Block {
    NewBlock(CodeKind, Join(codeLines, "\n"), 0, order).(language := language)
  }

  function CodeIn(p: Progress, codeLines: seq<string>, language: string): Block {
    NewCode(codeLines, language, |p.blocks| + 1).(path := p.section)
  }

  lemma {:induction false} FenceClosed(lines: seq<string>, open: nat, i: nat, codeLines: seq<string>,
                                       language: string,
                                       p: Progress, maxBlocks: nat)
    requires InFence(lines, open, i, codeLines, language) && i < |lines| && IsFence(lines[i])
    ensures open < i && Next(lines, open) == Fenced(open, i) && InBounds(Fenced(open, i), lines)
    ensures HeadingOf(Fenced(open, i), lines) == [] && End(Fenced(open, i), lines) == i + 1
    ensures IsBlockOf(CodeIn(p, codeLines, language), Fenced(open, i), lines, p.section, |p.blocks| + 1)
    ensures Fits(Fenced(open, i), |p.blocks|, maxBlocks) <==> |p.blocks| + 1 <= maxBlocks
  {
  }

  lemma {:induction false} FenceUnclosed(lines: seq<string>, open: nat, codeLines: seq<string>, language: string,
                                         path: seq<string>, order: nat)
    requires InFence(lines, open, |lines|, codeLines, language)
    ensures Next(lines, open) == Unclosed(open)
    ensures HeadingOf(Unclosed(open), lines) == [] && End(Unclosed(open), lines) == |lines|
    ensures BlockOf(Unclosed(open), lines, path, order) == NewCode(codeLines, language, order)
  {
  }

  lemma {:induction false} FenceStep(lines: seq<string>, i: nat, request: Request, p: Progress,
                                     codeLines: seq<string>,
                                     language: string, open: nat)
    requires i < |lines| && IsFence(lines[i]) && InFence(lines, open, i, codeLines, language)
    requires ReadTo(lines, open, request, p)
    ensures |p.blocks| + 1 <= request.maxBlocks ==> ReadTo(lines, i + 1, request, WithBlock(p, CodeIn(p, codeLines, language)))
    ensures |p.blocks| + 1 > request.maxBlocks ==> Means(lines, request, Failed(BlockLimitExceeded))
  {
    hide *;
    FenceClosed(lines, open, i, codeLines, language, p, request.maxBlocks);
    if |p.blocks| + 1 <= request.maxBlocks {
      PlainSegment(lines, open, request, p, Fenced(open, i), CodeIn(p, codeLines, language));
    } else {
      LimitFails(lines, open, request, p);
    }
  }

  /** The fence that closes a code block. */
  method CloseFence(lines: seq<string>, i: nat, request: Request, p: Progress, codeLines: seq<string>,
                    language: string,
                    ghost open: nat)
    returns (ok: bool, p': Progress)
    requires i < |lines| && IsFence(lines[i]) && InFence(lines, open, i, codeLines, language)
    requires ReadTo(lines, open, request, p)
    ensures ok ==> ReadTo(lines, i + 1, request, p')
    ensures !ok ==> Means(lines, request, Failed(BlockLimitExceeded))
  {
    FenceStep(lines, i, request, p, codeLines, language, open);
    hide *;
    p' := WithBlock(p, CodeIn(p, codeLines, language));
    ok := |p.blocks| + 1 <= request.maxBlocks;
  }

  lemma {:induction false} StandsUnclosed(segments: seq<Segment>, lines: seq<string>, request: Request, p: Progress,
                                          open: nat)
    requires Stands(segments, lines, request, p) && open < |lines| && |p.blocks| <= request.maxBlocks
    ensures Stands(segments + [Unclosed(open)], lines, request,
                   WithBlock(p, BlockOf(Unclosed(open), lines, [], |p.blocks| + 1)))
  {
    HeadingsNext(segments, lines, Unclosed(open));
    Regroup(Headings(segments, lines), [], []);
    BlocksNext(segments, lines, Unclosed(open), p.section);
    LimitNext(segments, lines, Unclosed(open), request.maxBlocks);
  }

  /** The end of a document whose last fence is not closed. */
  lemma {:induction false} EndInFence(lines: seq<string>, request: Request, p: Progress, codeLines: seq<string>,
                                      language: string, open: nat)
    requires InFence(lines, open, |lines|, codeLines, language) && |p.blocks| <= request.maxBlocks
    requires ReadTo(lines, open, request, p)
    ensures Means(lines, request, Document(Ast(p.title, p.blocks + [NewCode(codeLines, language, |p.blocks| + 1)], true)))
  {
    var segments :| Tiled(segments, lines, open) && Stands(segments, lines, request, p);
    TileNext(segments, lines, open);
    FenceUnclosed(lines, open, codeLines, language, [], |p.blocks| + 1);
    StandsUnclosed(segments, lines, request, p, open);
    Regroup(segments + [Unclosed(open)], [], []);
  }

  // ---------- tables ----------

  method ReadRow(line: string) returns (row: seq<string>)
    ensures row == RowOf(line)
  {
    var cells := Split(TrimBars(Trim(line)), '|');
    row := [];
    for column := 0 to |cells|
      invariant row == CellTexts(cells, column)
    {
      row := row + [Trim(cells[column])];
    }
  }

  /** The table loop, from line `i` to the first line without a bar. */
  method ReadTable(lines: seq<string>, i: nat) returns (rows: seq<seq<string>>, next: nat)
    requires i <= |lines|
    ensures next == TableEnd(lines, i) && rows == TableRows(lines, i, next)
  {
    hide IsTableSeparator, RowOf;
    rows, next := [], i;
    while next < |lines| && '|' in lines[next]
      invariant i <= next <= |lines|
      invariant TableEnd(lines, i) == TableEnd(lines, next)
      invariant rows == TableRows(lines, i, next)
    {
      if !IsTableSeparator(lines[next]) {
        var row := ReadRow(lines[next]);
        rows := rows + [row];
      }
      next := next + 1;
    }
  }

  function TableIn(p: Progress, rows: seq<seq<string>>): Block {
    NewBlock(TableKind, "", 0, |p.blocks| + 1).(rows := rows, path := p.section)
  }

  lemma {:induction false} NextIsTable(lines: seq<string>, i: nat, p: Progress, maxBlocks: nat)
    requires i < |lines| && !IsFence(lines[i]) && Trim(lines[i]) != [] && TableStart(lines, i)
    ensures var end := TableEnd(lines, i);
            && i < end <= |lines|
            && Next(lines, i) == Table(i, end) && HeadingOf(Table(i, end), lines) == [] && End(Table(i, end), lines) == end
            && Fits(Table(i, end), |p.blocks|, maxBlocks)
            && IsBlockOf(TableIn(p, TableRows(lines, i, end)), Table(i, end), lines, p.section, |p.blocks| + 1)
  {
    TableProgress(lines, i);
  }

  /** A table, whatever the limit; the loop always passes its first line. */
  method ReadTableBlock(lines: seq<string>, i: nat, request: Request, p: Progress) returns (next: nat, p': Progress)
    requires i < |lines| && ReadTo(lines, i, request, p)
    requires !IsFence(lines[i]) && Trim(lines[i]) != [] && TableStart(lines, i)
    ensures i < next <= |lines| && ReadTo(lines, next, request, p')
  {
    NextIsTable(lines, i, p, request.maxBlocks);
    assert InBounds(Table(i, TableEnd(lines, i)), lines);
    hide *;
    var rows;
    rows, next := ReadTable(lines, i);
    PlainSegment(lines, i, request, p, Table(i, next), TableIn(p, rows));
    p' := WithBlock(p, TableIn(p, rows));
  }

  // ---------- single lines ----------

  lemma {:induction false} NextIsBlank(lines: seq<string>, i: nat)
    requires i < |lines| && !IsFence(lines[i]) && Trim(lines[i]) == []
    ensures Next(lines, i) == Blank(i) && InBounds(Blank(i), lines) && End(Blank(i), lines) == i + 1
  {
  }

  lemma {:induction false} BlankKeeps(lines: seq<string>, i: nat, request: Request, p: Progress)
    requires i < |lines| && ReadTo(lines, i, request, p)
    requires !IsFence(lines[i]) && Trim(lines[i]) == []
    ensures ReadTo(lines, i + 1, request, p)
  {
    NextIsBlank(lines, i);
    hide Next, Trim, IsFence;
    var segments :| Tiled(segments, lines, i) && Stands(segments, lines, request, p);
    TileNext(segments, lines, i);
    StandsBlank(segments, lines, request, p, Blank(i));
    hide Tiled, Stands;
  }

  function SingleIn(p: Progress, line: Line, section: seq<string>): Block {
    NewBlock(line.kind, line.text, line.level, |p.blocks| + 1).(path := section)
  }

  lemma {:induction false} NextIsSingle(lines: seq<string>, i: nat, p: Progress, maxBlocks: nat)
    requires i < |lines| && !IsFence(lines[i]) && Trim(lines[i]) != [] && !TableStart(lines, i)
    ensures Next(lines, i) == Single(i) && End(Single(i), lines) == i + 1 && InBounds(Single(i), lines)
    ensures Fits(Single(i), |p.blocks|, maxBlocks) <==> |p.blocks| + 1 <= maxBlocks
    ensures var line := LineType(Trim(lines[i]));
            && (line.kind != HeadingKind ==> HeadingOf(Single(i), lines) == [])
            && (line.kind == HeadingKind ==> line.level >= 1)
            && IsBlockOf(SingleIn(p, line, p.section), Single(i), lines, p.section, |p.blocks| + 1)
  {
  }

  method ReadHeading(lines: seq<string>, i: nat, request: Request, p: Progress, line: Line) returns (p': Progress)
    requires i < |lines| && ReadTo(lines, i, request, p)
    requires Next(lines, i) == Single(i) && line == LineType(Trim(lines[i])) && line.kind == HeadingKind && line.level >= 1
    requires |p.blocks| + 1 <= request.maxBlocks
    ensures ReadTo(lines, i + 1, request, p')
  {
    hide *;
    var section := UpdateSection(p.section, line.text, line.level);
    var title := NextTitle(p.title, request.requested, line.text);
    HeadingSegment(lines, i, request, p, line, section);
    p' := Progress(p.blocks + [SingleIn(p, line, section)], section, title);
  }

  /** A line that is a block by itself. */
  method ReadSingle(lines: seq<string>, i: nat, request: Request, p: Progress) returns (ok: bool, p': Progress)
    requires i < |lines| && ReadTo(lines, i, request, p)
    requires !IsFence(lines[i]) && Trim(lines[i]) != [] && !TableStart(lines, i)
    ensures ok ==> ReadTo(lines, i + 1, request, p')
    ensures !ok ==> Means(lines, request, Failed(BlockLimitExceeded))
  {
    var line := LineType(Trim(lines[i]));
    NextIsSingle(lines, i, p, request.maxBlocks);
    hide *;
    ok, p' := |p.blocks| + 1 <= request.maxBlocks, p;
    if !ok {
      LimitFails(lines, i, request, p);
    } else if line.kind == HeadingKind {
      p' := ReadHeading(lines, i, request, p, line);
    } else {
      PlainSegment(lines, i, request, p, Single(i), SingleIn(p, line, p.section));
      p' := WithBlock(p, SingleIn(p, line, p.section));
    }
  }

  // ---------- the loop ----------

  /** The parser state between two lines; in a fence, `open` is the line of the fence. */
  ghost predicate Between(lines: seq<string>, i: nat, request: Request, p: Progress, inCode: bool,
                          codeLines: seq<string>,
                          language: string, open: nat) {
    && i <= |lines|
    && ReadTo(lines, if inCode then open else i, request, p)
    && (inCode ==> InFence(lines, open, i, codeLines, language) && |p.blocks| <= request.maxBlocks)
  }

  /** A fence line, either way. */
  method ReadFence(lines: seq<string>, i: nat, request: Request, p: Progress, inCode: bool, codeLines: seq<string>,
                   language: string, ghost open: nat)
    returns (ok: bool, p': Progress, language': string, ghost open': nat)
    requires i < |lines| && IsFence(lines[i]) && Between(lines, i, request, p, inCode, codeLines, language, open)
    ensures ok ==> Between(lines, i + 1, request, p', !inCode, [], language', open')
    ensures !ok ==> Means(lines, request, Failed(BlockLimitExceeded))
  {
    if inCode {
      ok, p' := CloseFence(lines, i, request, p, codeLines, language, open);
      language', open' := "", i;
    } else {
      FenceOpened(lines, i);
      ok, p', language', open' := |p.blocks| <= request.maxBlocks, p, Language(lines[i]), i;
      if !ok {
        FenceOverLimit(lines, i, request, p);
      }
    }
  }

  /** One step outside a fence: a blank line, a table or a single line. */
  method ReadOutside(lines: seq<string>, i: nat, request: Request, p: Progress, ghost codeLines: seq<string>,
                     ghost language: string, ghost open: nat)
    returns (ok: bool, next: nat, p': Progress)
    requires i < |lines| && Between(lines, i, request, p, false, codeLines, language, open) && !IsFence(lines[i])
    ensures i < next <= |lines|
    ensures ok ==> Between(lines, next, request, p', false, codeLines, language, open)
    ensures !ok ==> Means(lines, request, Failed(BlockLimitExceeded))
  {
    ok, next, p' := true, i + 1, p;
    if Trim(lines[i]) == [] {
      BlankKeeps(lines, i, request, p);
    } else if TableStart(lines, i) {
      next, p' := ReadTableBlock(lines, i, request, p);
    } else {
      ok, p' := ReadSingle(lines, i, request, p);
    }
  }

  /** What the end of the lines leaves. */
  method ReadEnd(lines: seq<string>, request: Request, p: Progress, inCode: bool, codeLines: seq<string>,
                 language: string, ghost open: nat)
    returns (r: Parsed)
    requires Between(lines, |lines|, request, p, inCode, codeLines, language, open)
    ensures Means(lines, request, r)
  {
    if inCode {
      EndInFence(lines, request, p, codeLines, language, open);
      r := Document(Ast(p.title, p.blocks + [NewCode(codeLines, language, |p.blocks| + 1)], true));
    } else {
      ReadAll(lines, request, p);
      r := if p.blocks == [] then Failed(InvalidFile) else Document(Ast(p.title, p.blocks, false));
    }
  }

  /** One pass through the loop. */
  method ReadLine(lines: seq<string>, i: nat, request: Request, p: Progress, inCode: bool, codeLines: seq<string>,
                  language: string, ghost open: nat)
    returns (ok: bool, next: nat, p': Progress, inCode': bool, codeLines': seq<string>, language': string, ghost open': nat)
    requires i < |lines| && Between(lines, i, request, p, inCode, codeLines, language, open)
    ensures i < next <= |lines|
    ensures ok ==> Between(lines, next, request, p', inCode', codeLines', language', open')
    ensures !ok ==> Means(lines, request, Failed(BlockLimitExceeded))
  {
    hide *;
    ok, next, p', inCode', codeLines', language', open' := true, i + 1, p, inCode, codeLines, language, open;
    if IsFence(lines[i]) {
      ok, p', language', open' := ReadFence(lines, i, request, p, inCode, codeLines, language, open);
      inCode', codeLines' := !inCode, [];
    } else if inCode {
      CodeLineBetween(lines, i, request, p, codeLines, language, open);
      codeLines' := codeLines + [lines[i]];
    } else {
      ok, next, p' := ReadOutside(lines, i, request, p, codeLines, language, open);
    }
  }

  /** The loop over the lines computes what the segments of the document stand for. */
  method ParseLines(lines: seq<string>, request: Request) returns (r: Parsed)
    ensures Means(lines, request, r)
  {
    var p := Progress([], [], request.title);
    var inCode, language, codeLines: seq<string> := false, "", [];
    ghost var open: nat := 0;
    ReadNothing(lines, request);
    var i: nat := 0;
    assert Between(lines, 0, request, p, inCode, codeLines, language, open);
    hide *;
    while i < |lines|
      invariant i <= |lines|
      invariant Between(lines, i, request, p, inCode, codeLines, language, open)
      decreases |lines| - i
    {
      var ok;
      ok, i, p, inCode, codeLines, language, open := ReadLine(lines, i, request, p, inCode, codeLines, language, open);
      if !ok {
        return Failed(BlockLimitExceeded);
      }
    }
    r := ReadEnd(lines, request, p, inCode, codeLines, language, open);
  }

  lemma {:induction false} CodeLineBetween(lines: seq<string>, i: nat, request: Request, p: Progress,
                                           codeLines: seq<string>, language: string, open: nat)
    requires i < |lines| && !IsFence(lines[i]) && Between(lines, i, request, p, true, codeLines, language, open)
    ensures Between(lines, i + 1, request, p, true, codeLines + [lines[i]], language, open)
  {
    CodeLineKeeps(lines, open, i, codeLines, language);
  }

  lemma {:induction false} FenceOverLimit(lines: seq<string>, i: nat, request: Request, p: Progress)
    requires i < |lines| && IsFence(lines[i]) && ReadTo(lines, i, request, p) && |p.blocks| > request.maxBlocks
    ensures Means(lines, request, Failed(BlockLimitExceeded))
  {
    FenceOpened(lines, i);
    LimitFails(lines, i, request, p);
  }
}
