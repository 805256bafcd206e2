/** What the chunk texts hold, apart from white space: the runes of the stored texts, block by block. */
module SemanticInk {
  import opened Text
  import opened TextParts
  import Decimal
  import opened BlockTree
  import opened SemanticRender
  import opened SemanticSections
  import opened SemanticPlan
  import opened SemanticChildren
  import opened SemanticChunks

  // ---------- what is stored ----------

  /** The runes of some cells, with a bar between two cells. */
  function CellsInk(cells: seq<Stored>): string {
    if cells == [] then ""
    else if |cells| == 1 then Ink(cells[0].row.text)
    else Ink(cells[0].row.text) + "|" + CellsInk(cells[1..])
  }

  function RowsInk(rows: seq<Stored>, kids: Kids): string {
    if rows == [] then ""
    else RowsInk(rows[..|rows| - 1], kids) + CellsInk(KidsOf(kids, rows[|rows| - 1].id))
  }

  /** The marks of a heading: as many as its level, and one at least. */
  function Marks(level: int): string {
    seq(if level > 1 then level else 1, i => '#')
  }

  /** The runes of a block: for a table those of its cells, for any other block those of its text, a heading's behind its marks. */
  function BlockInk(block: Stored, kids: Kids): string {
    if block.row.kind == "table" then RowsInk(KidsOf(kids, block.id), kids)
    else if block.row.kind == "heading" && Ink(block.row.text) != "" then Marks(block.row.level) + Ink(block.row.text)
    else Ink(block.row.text)
  }

  function StoredInk(blocks: seq<Stored>, kids: Kids): string {
    if blocks == [] then "" else StoredInk(blocks[..|blocks| - 1], kids) + BlockInk(blocks[|blocks| - 1], kids)
  }

  // ---------- what is rendered ----------

  lemma {:induction false} CellTextsAt(cells: seq<Stored>)
    ensures |CellTexts(cells)| == |cells|
    ensures forall i :: 0 <= i < |cells| ==> CellTexts(cells)[i] == Trim(cells[i].row.text)
  {
    hide Trim;
    if cells != [] {
      CellTextsAt(cells[..|cells| - 1]);
    }
  }

  lemma BarInk()
    ensures Ink(" | ") == "|"
  {
  }

  /** The text of a row is its cells with bars between them. */
  lemma {:induction false} RowTextInk(cells: seq<Stored>)
    ensures Ink(Join(CellTexts(cells), " | ")) == CellsInk(cells)
  {
    CellTextsAt(cells);
    if |cells| == 1 {
      InkTrim(cells[0].row.text);
    } else if cells != [] {
      CellTextsAt(cells[1..]);
      assert CellTexts(cells)[1..] == CellTexts(cells[1..]);
      RowTextInk(cells[1..]);
      hide CellTexts, Trim, Ink;
      JoinedInk(CellTexts(cells), " | ");
      InkTrim(cells[0].row.text);
      BarInk();
    }
  }

  lemma {:induction false} JoinedInk(parts: seq<string>, sep: string)
    requires |parts| >= 2
    ensures Ink(Join(parts, sep)) == Ink(parts[0]) + Ink(sep) + Ink(Join(parts[1..], sep))
  {
    InkConcat(parts[0] + sep, Join(parts[1..], sep));
    InkConcat(parts[0], sep);
  }

  lemma {:induction false} InkAllOne(text: string)
    ensures InkAll([text]) == Ink(text)
  {
    assert [text][1..] == [];
    Regroup(Ink(text), [], []);
  }

  lemma {:induction false} RowTextsInk(rows: seq<Stored>, kids: Kids)
    ensures InkAll(RowTexts(rows, kids)) == RowsInk(rows, kids)
  {
    if rows != [] {
      var before, row := RowTexts(rows[..|rows| - 1], kids), rows[|rows| - 1];
      RowTextsInk(rows[..|rows| - 1], kids);
      RowTextInk(KidsOf(kids, row.id));
      var text := RowText(row, kids);
      InkAllConcat(before, if text != "" then [text] else []);
      InkAllOne(text);
    }
  }

  lemma {:induction false} HashesAreMarks(n: nat)
    ensures Hashes(n) == seq(n, i => '#') && Ink(Hashes(n)) == Hashes(n)
  {
    if n > 0 {
      HashesAreMarks(n - 1);
      assert seq(n, i => '#') == ['#'] + seq(n - 1, i => '#');
    }
  }

  /** The line of a heading is its marks, a blank and its text. */
  lemma {:induction false} HeadingInk(level: int, text: string)
    ensures Ink(Hashes(if level > 1 then level else 1) + " " + text) == Marks(level) + Ink(text)
  {
    var n := if level > 1 then level else 1;
    HashesAreMarks(n);
    InkConcat(Hashes(n) + " ", text);
    InkConcat(Hashes(n), " ");
    assert Ink(" ") == "";
    Regroup(Hashes(n), [], []);
  }

  lemma {:induction false} InkOfBlank(text: string)
    ensures Trim(text) == "" <==> Ink(text) == ""
  {
    InkTrim(text);
    if Trim(text) != "" {
      InInk(text, Trim(text)[0]);
      InInk(Trim(text), Trim(text)[0]);
    }
  }

  lemma {:induction false} LinesInk(block: Stored, kids: Kids)
    ensures InkAll(LinesOf(block, kids)) == BlockInk(block, kids)
  {
    if IsTable(block) {
      RowTextsInk(KidsOf(kids, block.id), kids);
    } else {
      var text := Trim(block.row.text);
      InkTrim(block.row.text);
      InkOfBlank(block.row.text);
      HeadingInk(block.row.level, text);
      if text != "" {
        InkAllOne(LinesOf(block, kids)[0]);
      }
    }
  }

  lemma {:induction false} BlockLinesInk(blocks: seq<Stored>, kids: Kids)
    ensures InkAll(BlockLines(blocks, kids)) == StoredInk(blocks, kids)
  {
    hide LinesOf, BlockInk;
    if blocks != [] {
      BlockLinesInk(blocks[..|blocks| - 1], kids);
      LinesInk(blocks[|blocks| - 1], kids);
      InkAllConcat(BlockLines(blocks[..|blocks| - 1], kids), LinesOf(blocks[|blocks| - 1], kids));
    }
  }

  /** The text of some blocks holds the runes of those blocks, in order, and nothing else. */
  lemma {:induction false} TextInk(blocks: seq<Stored>, kids: Kids)
    ensures Ink(TextOf(blocks, kids)) == StoredInk(blocks, kids)
  {
    hide Trim, Ink, BlockLines, StoredInk;
    BlockLinesInk(blocks, kids);
    InkJoin(BlockLines(blocks, kids), "\n\n");
    InkTrim(Join(BlockLines(blocks, kids), "\n\n"));
  }

  // ---------- what the chunks hold ----------

  lemma GroupInk(blocks: seq<Stored>, kids: Kids, context: Context)
    ensures Ink(GroupChunkOf(blocks, kids, context).content) == StoredInk(blocks, kids)
  {
    hide TextOf, Ink, Trim, StoredInk;
    InkTrim(TextOf(blocks, kids));
    TextInk(blocks, kids);
  }

  lemma SectionInk(section: Section, kids: Kids, index: nat)
    ensures Ink(SectionChunkOf(section, kids, index).content) == StoredInk(section.blocks, kids)
  {
    hide TextOf, Ink, Trim, StoredInk;
    InkTrim(TextOf(section.blocks, kids));
    TextInk(section.blocks, kids);
  }

  const BEFORE := "Prerequisites / Risk / Step:"
  const COMMAND := "Command:"
  const BEHIND := "Verification / Rollback:"

  /** What stands around a command, behind its title; nothing without text. */
  function ContextInk(title: string, blocks: seq<Stored>): string {
    if StoredInk(blocks, map[]) == "" then "" else Ink(title) + StoredInk(blocks, map[])
  }

  lemma {:induction false} PartInk(title: string, text: string)
    ensures Ink(title + "\n" + text) == Ink(title) + Ink(text)
  {
    InkConcat(title + "\n", text);
    InkConcat(title, "\n");
    assert Ink("\n") == "";
    Regroup(Ink(title), [], []);
  }

  /** The parts around a command: none without text. */
  function Part(title: string, blocks: seq<Stored>): seq<string> {
    if TextOf(blocks, map[]) != "" then [title + "\n" + TextOf(blocks, map[])] else []
  }

  lemma {:induction false} ContextPart(title: string, blocks: seq<Stored>)
    ensures InkAll(Part(title, blocks)) == ContextInk(title, blocks)
  {
    var text := TextOf(blocks, map[]);
    TextInk(blocks, map[]);
    InkOfBlank(text);
    TrimOfTrimmed(text);
    PartInk(title, text);
    InkAllOne(title + "\n" + text);
  }

  lemma CommandParts(before: seq<Stored>, command: string, after: seq<Stored>)
    ensures CommandText(before, command, after)
            == Join(Part(BEFORE, before) + [COMMAND + "\n" + Trim(command)] + Part(BEHIND, after), "\n\n")
  {
    hide TextOf, Trim, Join;
    assert BEFORE + "\n" == "Prerequisites / Risk / Step:\n";
    assert COMMAND + "\n" == "Command:\n";
    assert BEHIND + "\n" == "Verification / Rollback:\n";
  }

  lemma {:induction false} CommandTextInk(before: seq<Stored>, command: string, after: seq<Stored>)
    ensures Ink(CommandText(before, command, after))
            == ContextInk(BEFORE, before) + (Ink(COMMAND) + Ink(command)) + ContextInk(BEHIND, after)
  {
    hide *;
    var head, body, tail := Part(BEFORE, before), [COMMAND + "\n" + Trim(command)], Part(BEHIND, after);
    CommandParts(before, command, after);
    ContextPart(BEFORE, before);
    ContextPart(BEHIND, after);
    PartInk(COMMAND, Trim(command));
    InkTrim(command);
    InkAllOne(COMMAND + "\n" + Trim(command));
    InkAllConcat(head + body, tail);
    InkAllConcat(head, body);
    TwoBreaks();
    InkJoin(head + body + tail, "\n\n");
  }

  lemma TwoBreaks()
    ensures forall c :: c in "\n\n" ==> IsSpace(c)
    ensures forall c :: c in "\n" ==> IsSpace(c)
  {
  }

  lemma CodeContent(blocks: seq<Stored>, at: nat, limit: nat, context: Context)
    requires at < |blocks|
    ensures CodeChunkOf(blocks, at, limit, context).content
            == Trim(CommandText(Before(blocks, at, limit), blocks[at].row.text, Behind(blocks, at, limit)))
  {
    hide Trim, CommandText, Before, Behind, Unique, Keys;
  }

  /** A code chunk holds the blocks in front of the command, the command, and the blocks behind it, each part behind its title. */
  lemma CommandInk(blocks: seq<Stored>, at: nat, limit: nat, context: Context)
    requires at < |blocks|
    ensures Ink(CodeChunkOf(blocks, at, limit, context).content)
            == ContextInk(BEFORE, Before(blocks, at, limit))
               + (Ink(COMMAND) + Ink(blocks[at].row.text))
               + ContextInk(BEHIND, Behind(blocks, at, limit))
  {
    hide *;
    var before, after, command := Before(blocks, at, limit), Behind(blocks, at, limit), blocks[at].row.text;
    CodeContent(blocks, at, limit, context);
    CommandTextInk(before, command, after);
    InkTrim(CommandText(before, command, after));
  }

  /** The rows `start..start + n` behind their numbers. */
  function NumberedInk(rows: seq<Stored>, kids: Kids, start: nat, n: nat): string
    requires start + n <= |rows|
  {
    if n == 0 then ""
    else NumberedInk(rows, kids, start, n - 1)
         + ("Row" + Decimal.Dec(start + n) + ":" + CellsInk(KidsOf(kids, rows[start + n - 1].id)))
  }

  lemma WordBlank(word: string)
    requires forall c :: c in word ==> '!' <= c <= 'z'
    ensures Ink(word + " ") == word
  {
    InkConcat(word, " ");
    InkOfInk(word);
    assert Ink(" ") == "";
    Regroup(word, [], []);
  }

  lemma WordInk()
    ensures Ink("Row ") == "Row" && Ink(": ") == ":" && Ink("Header: ") == "Header:"
  {
    hide *;
    WordBlank("Row");
    WordBlank(":");
    WordBlank("Header:");
    assert "Row" + " " == "Row " && ":" + " " == ": " && "Header:" + " " == "Header: ";
  }

  lemma NumeralInk(n: nat)
    ensures Ink(Decimal.Dec(n)) == Decimal.Dec(n)
  {
    forall c | c in Decimal.Dec(n) ensures !IsSpace(c) {
      assert Decimal.IsDigit(c);
    }
    InkOfInk(Decimal.Dec(n));
  }

  function RowLine(number: nat, row: Stored, kids: Kids): string {
    "Row " + Decimal.Dec(number) + ": " + RowText(row, kids)
  }

  lemma {:induction false} RowLineInk(number: nat, row: Stored, kids: Kids)
    ensures Ink(RowLine(number, row, kids)) == "Row" + Decimal.Dec(number) + ":" + CellsInk(KidsOf(kids, row.id))
  {
    var n, text := Decimal.Dec(number), RowText(row, kids);
    RowTextInk(KidsOf(kids, row.id));
    NumeralInk(number);
    WordInk();
    hide Ink, CellsInk, Decimal.Dec, KidsOf;
    InkConcat("Row " + n + ": ", text);
    InkConcat("Row " + n, ": ");
    InkConcat("Row ", n);
  }

  lemma HeaderInk(header: Stored, kids: Kids)
    ensures InkAll(["Header: " + RowText(header, kids)]) == "Header:" + CellsInk(KidsOf(kids, header.id))
  {
    RowTextInk(KidsOf(kids, header.id));
    WordInk();
    hide Ink, CellsInk, KidsOf, InkAll;
    InkConcat("Header: ", RowText(header, kids));
    InkAllOne("Header: " + RowText(header, kids));
  }

  lemma TableLinesNext(rows: seq<Stored>, kids: Kids, header: Stored, start: nat, n: nat)
    requires 0 < n && start + n <= |rows|
    ensures TableLines(rows, kids, header, start, n)
            == TableLines(rows, kids, header, start, n - 1) + [RowLine(start + n, rows[start + n - 1], kids)]
    ensures NumberedInk(rows, kids, start, n)
            == NumberedInk(rows, kids, start, n - 1)
               + ("Row" + Decimal.Dec(start + n) + ":" + CellsInk(KidsOf(kids, rows[start + n - 1].id)))
  {
    hide RowText, Decimal.Dec, CellsInk, KidsOf;
  }

  lemma TableLinesStart(rows: seq<Stored>, kids: Kids, header: Stored, start: nat)
    requires start <= |rows|
    ensures TableLines(rows, kids, header, start, 0) == ["Header: " + RowText(header, kids)]
    ensures NumberedInk(rows, kids, start, 0) == ""
  {
  }

  lemma {:induction false} TableLinesInk(rows: seq<Stored>, kids: Kids, header: Stored, start: nat, n: nat)
    requires start + n <= |rows|
    ensures InkAll(TableLines(rows, kids, header, start, n))
            == "Header:" + CellsInk(KidsOf(kids, header.id)) + NumberedInk(rows, kids, start, n)
  {
    hide *;
    if n == 0 {
      TableLinesStart(rows, kids, header, start);
      HeaderInk(header, kids);
    } else {
      TableLinesInk(rows, kids, header, start, n - 1);
      TableLinesNext(rows, kids, header, start, n);
      var row := rows[start + n - 1];
      RowLineInk(start + n, row, kids);
      InkAllOne(RowLine(start + n, row, kids));
      InkAllConcat(TableLines(rows, kids, header, start, n - 1), [RowLine(start + n, row, kids)]);
      Regroup("Header:" + CellsInk(KidsOf(kids, header.id)), NumberedInk(rows, kids, start, n - 1),
              "Row" + Decimal.Dec(start + n) + ":" + CellsInk(KidsOf(kids, row.id)));
    }
  }

  lemma TableContent(table: Stored, header: Stored, rows: seq<Stored>, kids: Kids, start: nat, end: nat, context: Context)
    requires start <= end <= |rows|
    ensures TableChunkOf(table, header, rows, kids, start, end, context).content
            == Trim(Join(TableLines(rows, kids, header, start, end - start), "\n"))
  {
    hide Trim, Join, TableLines, Unique, TableKeys;
  }

  /** A table chunk holds the header and its rows, each behind its number in the table. */
  lemma TableInk(table: Stored, header: Stored, rows: seq<Stored>, kids: Kids, start: nat, end: nat, context: Context)
    requires start <= end <= |rows|
    ensures Ink(TableChunkOf(table, header, rows, kids, start, end, context).content)
            == "Header:" + CellsInk(KidsOf(kids, header.id)) + NumberedInk(rows, kids, start, end - start)
  {
    hide *;
    var lines := TableLines(rows, kids, header, start, end - start);
    TableContent(table, header, rows, kids, start, end, context);
    TableLinesInk(rows, kids, header, start, end - start);
    TwoBreaks();
    InkJoin(lines, "\n");
    InkTrim(Join(lines, "\n"));
  }

  // ---------- the whole list ----------

  /** The runes of the chunks of one kind, in order. */
  function KindInk(chunks: seq<Chunk>, kind: ChunkKind): string {
    if chunks == [] then ""
    else
      var last := chunks[|chunks| - 1];
      KindInk(chunks[..|chunks| - 1], kind) + if last.kind == kind then Ink(last.content) else ""
  }

  /** The runes of the root blocks, section by section. */
  function RootsInk(sections: seq<Section>, kids: Kids): string {
    if sections == [] then ""
    else RootsInk(sections[..|sections| - 1], kids) + StoredInk(sections[|sections| - 1].blocks, kids)
  }

  /** Those of the plain ones among them. */
  function PlainInk(sections: seq<Section>, kids: Kids): string {
    if sections == [] then ""
    else
      var blocks := sections[|sections| - 1].blocks;
      PlainInk(sections[..|sections| - 1], kids) + StoredInk(PlainBlocks(blocks, |blocks|), kids)
  }

  lemma {:induction false} KindInkConcat(a: seq<Chunk>, b: seq<Chunk>, kind: ChunkKind)
    ensures KindInk(a + b, kind) == KindInk(a, kind) + KindInk(b, kind)
  {
    hide Ink;
    if b == [] {
      assert a + b == a;
    } else {
      assert (a + b)[..|a + b| - 1] == a + b[..|b| - 1];
      KindInkConcat(a, b[..|b| - 1], kind);
    }
  }

  lemma {:induction false} OtherKinds(chunks: seq<Chunk>, kind: ChunkKind)
    requires forall i :: 0 <= i < |chunks| ==> chunks[i].kind != kind
    ensures KindInk(chunks, kind) == ""
  {
    if chunks != [] {
      OtherKinds(chunks[..|chunks| - 1], kind);
    }
  }

  lemma {:induction false} OneChunk(chunk: Chunk, kind: ChunkKind)
    ensures KindInk([chunk], kind) == if chunk.kind == kind then Ink(chunk.content) else ""
  {
    assert [chunk][..0] == [];
  }

  lemma {:induction false} StoredInkConcat(a: seq<Stored>, b: seq<Stored>, kids: Kids)
    ensures StoredInk(a + b, kids) == StoredInk(a, kids) + StoredInk(b, kids)
  {
    hide BlockInk;
    if b == [] {
      assert a + b == a;
    } else {
      assert (a + b)[..|a + b| - 1] == a + b[..|b| - 1];
      StoredInkConcat(a, b[..|b| - 1], kids);
    }
  }

  lemma {:induction false} RowChunksKind(table: Stored, header: Stored, rows: seq<Stored>, kids: Kids, perChunk: nat,
                                         start: nat, context: Context)
    requires perChunk > 0
    ensures forall c :: c in RowChunks(table, header, rows, kids, perChunk, start, context) ==> c.kind == TableChunk
    decreases |rows| - start
  {
    hide RowChunks;
    if start >= |rows| {
      RowChunksEnd(table, header, rows, kids, perChunk, start, context);
    } else {
      RowChunksStep(table, header, rows, kids, perChunk, start, context);
      RowChunksKind(table, header, rows, kids, perChunk, start + perChunk, context);
    }
  }

  lemma {:induction false} TableChunksKind(table: Stored, kids: Kids, perChunk: nat, context: Context)
    requires perChunk > 0
    ensures forall c :: c in TableChunks(table, kids, perChunk, context) ==> c.kind == TableChunk
  {
    var rows := KidsOf(kids, table.id);
    hide RowChunks;
    if rows != [] {
      RowChunksKind(table, rows[0], DataRows(rows), kids, perChunk, 0, context);
    }
  }

  function GroupOf(piece: Piece, blocks: seq<Stored>): seq<Stored>
    requires InBounds(piece, blocks)
  {
    match piece case Group(from, to, _) => blocks[from..to] case CodeAt(_) => [] case TableAt(_) => []
  }

  lemma {:induction false} PieceInk(piece: Piece, blocks: seq<Stored>, kids: Kids, config: Config, context: Context)
    requires InBounds(piece, blocks) && config.tableRowsPerChunk > 0
    ensures KindInk(PieceChunks(piece, blocks, kids, config, context), GroupChunk) == StoredInk(GroupOf(piece, blocks), kids)
  {
    match piece {
      case Group(from, to, _) =>
        OneChunk(GroupChunkOf(blocks[from..to], kids, context), GroupChunk);
        GroupInk(blocks[from..to], kids, context);
      case CodeAt(at) =>
        OneChunk(CodeChunkOf(blocks, at, config.contextBlocks, context), GroupChunk);
      case TableAt(at) =>
        TableChunksKind(blocks[at], kids, config.tableRowsPerChunk, context);
        OtherKinds(TableChunks(blocks[at], kids, config.tableRowsPerChunk, context), GroupChunk);
    }
  }

  lemma {:induction false} PlanInk(plan: seq<Piece>, blocks: seq<Stored>, kids: Kids, config: Config, context: Context)
    requires AllInBounds(plan, blocks) && config.tableRowsPerChunk > 0
    ensures KindInk(ChunksOf(plan, blocks, kids, config, context), GroupChunk) == StoredInk(Grouped(plan, blocks), kids)
  {
    if plan != [] {
      var before, last := plan[..|plan| - 1], plan[|plan| - 1];
      PlanInk(before, blocks, kids, config, context);
      PieceInk(last, blocks, kids, config, context);
      hide PieceChunks, KindInk, StoredInk, InBounds;
      KindInkConcat(ChunksOf(before, blocks, kids, config, context), PieceChunks(last, blocks, kids, config, context), GroupChunk);
      StoredInkConcat(Grouped(before, blocks), GroupOf(last, blocks), kids);
    }
  }

  /** Blocks without runes have none among the plain ones either. */
  lemma {:induction false} NoPlainInk(blocks: seq<Stored>, kids: Kids, n: nat)
    requires n <= |blocks| && StoredInk(blocks[..n], kids) == ""
    ensures StoredInk(PlainBlocks(blocks, n), kids) == ""
  {
    hide BlockInk;
    if n > 0 {
      assert blocks[..n][..n - 1] == blocks[..n - 1] && blocks[..n][n - 1] == blocks[n - 1];
      NoPlainInk(blocks, kids, n - 1);
      var before := PlainBlocks(blocks, n - 1);
      assert (before + [blocks[n - 1]])[..|before|] == before;
      Regroup(before, [], []);
    }
  }

  lemma SectionKind(section: Section, kids: Kids, index: nat)
    ensures SectionChunkOf(section, kids, index).kind == SectionChunk
  {
  }

  lemma {:induction false} ChildrenInk(children: seq<Chunk>, blocks: seq<Stored>, kids: Kids, config: Config, context: Context,
                                       plan: seq<Piece>)
    requires config.tableRowsPerChunk > 0 && ChildrenOf(children, blocks, kids, config, context, plan)
    ensures KindInk(children, SectionChunk) == ""
    ensures KindInk(children, GroupChunk) == StoredInk(PlainBlocks(blocks, |blocks|), kids)
  {
    hide KindInk, StoredInk, PlainBlocks, Grouped, ChunksOf, PlanOk, AllInBounds;
    PiecesAreChildren(plan, blocks, kids, config, context);
    OtherKinds(children, SectionChunk);
    PlanInk(plan, blocks, kids, config, context);
    GroupsArePlainBlocks(plan, blocks, kids, config);
  }

  lemma {:induction false} ThreeParts(chunks: seq<Chunk>, at: nat, kind: ChunkKind)
    requires at < |chunks|
    ensures KindInk(chunks, kind)
            == KindInk(chunks[..at], kind) + (if chunks[at].kind == kind then Ink(chunks[at].content) else "")
               + KindInk(chunks[at + 1..], kind)
  {
    hide KindInk, Ink;
    OneChunk(chunks[at], kind);
    KindInkConcat(chunks[..at] + [chunks[at]], chunks[at + 1..], kind);
    KindInkConcat(chunks[..at], [chunks[at]], kind);
    assert chunks == chunks[..at] + [chunks[at]] + chunks[at + 1..];
  }

  lemma {:induction false} SectionsInk(chunks: seq<Chunk>, at: nat, plan: seq<Piece>, section: Section, kids: Kids, config: Config)
    requires config.tableRowsPerChunk > 0 && SectionAt(chunks, at, plan, section, kids, config)
    ensures KindInk(chunks, SectionChunk) == KindInk(chunks[..at], SectionChunk) + StoredInk(section.blocks, kids)
    ensures KindInk(chunks, GroupChunk)
            == KindInk(chunks[..at], GroupChunk) + StoredInk(PlainBlocks(section.blocks, |section.blocks|), kids)
  {
    hide KindInk, StoredInk, PlainBlocks, ChildrenOf, SectionChunkOf, Ink;
    ChildrenInk(chunks[at + 1..], section.blocks, kids, config, Context(section.path, at), plan);
    SectionInk(section, kids, at);
    SectionKind(section, kids, at);
    ThreeParts(chunks, at, SectionChunk);
    ThreeParts(chunks, at, GroupChunk);
  }

  lemma {:induction false} BuiltInk(chunks: seq<Chunk>, sections: seq<Section>, kids: Kids, config: Config)
    requires config.tableRowsPerChunk > 0 && Built(chunks, sections, kids, config)
    ensures KindInk(chunks, SectionChunk) == RootsInk(sections, kids)
    ensures KindInk(chunks, GroupChunk) == PlainInk(sections, kids)
  {
    if sections != [] {
      var before, last := sections[..|sections| - 1], sections[|sections| - 1];
      if TextOf(last.blocks, kids) == "" {
        hide TextOf, StoredInk, KindInk, PlainBlocks;
        BuiltInk(chunks, before, kids, config);
        TextInk(last.blocks, kids);
        assert last.blocks[..|last.blocks|] == last.blocks;
        NoPlainInk(last.blocks, kids, |last.blocks|);
      } else {
        var at: nat, plan :| SectionAt(chunks, at, plan, last, kids, config) && Built(chunks[..at], before, kids, config);
        BuiltInk(chunks[..at], before, kids, config);
        hide SectionAt, StoredInk, KindInk, PlainBlocks, Built, TextOf;
        SectionsInk(chunks, at, plan, last, kids, config);
      }
    }
  }

  lemma {:induction false} NumberedSameInk(chunks: seq<Chunk>, raw: seq<Chunk>, kind: ChunkKind)
    requires |chunks| == |raw| && forall i :: 0 <= i < |raw| ==> chunks[i].kind == raw[i].kind && chunks[i].content == raw[i].content
    ensures KindInk(chunks, kind) == KindInk(raw, kind)
  {
    if chunks != [] {
      NumberedSameInk(chunks[..|chunks| - 1], raw[..|raw| - 1], kind);
    }
  }

  /**
   * No text is lost, doubled or moved: the section chunks together hold the runes of all root blocks, and the group chunks
   * those of the plain ones, in both cases section by section and block by block.
   */
  lemma {:induction false} TextsAreKept(chunks: seq<Chunk>, raw: seq<Chunk>, sections: seq<Section>, kids: Kids, config: Config)
    requires config.tableRowsPerChunk > 0 && Built(raw, sections, kids, config) && Numbered(chunks, raw)
    ensures KindInk(chunks, SectionChunk) == RootsInk(sections, kids)
    ensures KindInk(chunks, GroupChunk) == PlainInk(sections, kids)
  {
    hide Built, KindInk, RootsInk, PlainInk;
    BuiltInk(raw, sections, kids, config);
    NumberedSameInk(chunks, raw, SectionChunk);
    NumberedSameInk(chunks, raw, GroupChunk);
  }
}
