/** Where the text of a stored block stands in the chunk list. */
module SemanticTexts {
  import opened Wrappers
  import opened Text
  import opened TextParts
  import Decimal
  import opened BlockTree
  import Sorting
  import opened SemanticRender
  import opened SemanticSections
  import opened SemanticPlan
  import opened SemanticChildren
  import opened SemanticKeys
  import opened SemanticChunks
  import opened SemanticInk

  ghost predicate Names(chunk: Chunk, keys: seq<string>) {
    forall k :: k in keys && k != "" ==> k in chunk.keys
  }

  /** The chunk is a child of p, names the keys and holds the text. */
  ghost predicate ChildShows(chunk: Chunk, p: nat, text: string, keys: seq<string>) {
    chunk.parent == Some(p) && Names(chunk, keys) && Contains(chunk.content, text)
  }

  /** Section chunk p holds the text, and so does a child of it that names the keys. */
  ghost predicate Shown(chunks: seq<Chunk>, p: nat, text: string, keys: seq<string>) {
    && p < |chunks| && chunks[p].parent.None? && Contains(chunks[p].content, text)
    && exists c :: c in chunks && ChildShows(c, p, text, keys)
  }

  // ---------- lines ----------

  lemma {:induction false} LineIn(blocks: seq<Stored>, kids: Kids, i: nat, line: string)
    requires i < |blocks| && line in LinesOf(blocks[i], kids)
    ensures line in BlockLines(blocks, kids)
  {
    hide LinesOf;
    if i < |blocks| - 1 {
      LineIn(blocks[..|blocks| - 1], kids, i, line);
    }
  }

  /** What a line of a block shows, the text of the blocks shows. */
  lemma {:induction false} TextContains(blocks: seq<Stored>, kids: Kids, i: nat, line: string, t: string)
    requires i < |blocks| && line in LinesOf(blocks[i], kids)
    requires Contains(line, t) && Trimmed(t) && t != ""
    ensures Contains(TextOf(blocks, kids), t) && TextOf(blocks, kids) != ""
  {
    LineIn(blocks, kids, i, line);
    var lines := BlockLines(blocks, kids);
    var k :| 0 <= k < |lines| && lines[k] == line;
    LinesContain(lines, "\n\n", k, t);
    hide LinesOf, BlockLines, Trim, Join;
    NotEmpty(TextOf(blocks, kids), t);
  }

  lemma NotEmpty(s: string, t: string)
    requires Contains(s, t) && t != ""
    ensures s != ""
  {
    var i :| At(s, t, i);
  }

  /** The line of a block that is no table: its text, a heading's behind its marks. */
  function ShownText(block: Stored): string {
    if block.row.kind == "heading" then Marks(block.row.level) + " " + Trim(block.row.text) else Trim(block.row.text)
  }

  lemma ShownLine(block: Stored, kids: Kids)
    requires !IsTable(block) && Trim(block.row.text) != ""
    ensures LinesOf(block, kids) == [ShownText(block)]
    ensures Trimmed(ShownText(block)) && ShownText(block) != ""
  {
    var text := Trim(block.row.text);
    if block.row.kind == "heading" {
      var n := if block.row.level > 1 then block.row.level else 1;
      HashesAreMarks(n);
      var line := ShownText(block);
      assert line[0] == '#' && line[|line| - 1] == text[|text| - 1];
    }
  }

  lemma {:induction false} CellIn(cells: seq<Stored>, i: nat)
    requires i < |cells|
    ensures Contains(Join(CellTexts(cells), " | "), Trim(cells[i].row.text))
  {
    hide Join, Trim, CellTexts;
    CellTextsAt(cells);
    JoinContains(CellTexts(cells), " | ", i);
  }

  lemma {:induction false} RowIn(rows: seq<Stored>, kids: Kids, i: nat)
    requires i < |rows| && RowText(rows[i], kids) != ""
    ensures RowText(rows[i], kids) in RowTexts(rows, kids)
  {
    hide RowText;
    if i < |rows| - 1 {
      RowIn(rows[..|rows| - 1], kids, i);
    }
  }

  // ---------- the pieces of a section ----------

  /** The piece is made from block i. */
  predicate Covers(piece: Piece, blocks: seq<Stored>, i: nat)
    requires i < |blocks|
  {
    match piece
    case Group(from, to, _) => from <= i < to && IsPlain(blocks[i])
    case CodeAt(at) => at == i && IsCode(blocks[i])
    case TableAt(at) => at == i && IsTable(blocks[i])
  }

  lemma {:induction false} PieceOf(plan: seq<Piece>, blocks: seq<Stored>, kids: Kids, config: Config, i: nat) returns (j: nat)
    requires PlanOk(plan, blocks, kids, config) && i < After(plan) && i < |blocks|
    ensures j < |plan| && Covers(plan[j], blocks, i)
  {
    hide StartsWell, IsPlain, IsCode, IsTable, Pulled, Overflows;
    var before := plan[..|plan| - 1];
    if i < After(before) {
      j := PieceOf(before, blocks, kids, config, i);
    } else {
      j := |plan| - 1;
    }
  }

  lemma {:induction false} PieceIn(plan: seq<Piece>, blocks: seq<Stored>, kids: Kids, config: Config, context: Context, j: nat)
    requires AllInBounds(plan, blocks) && config.tableRowsPerChunk > 0 && j < |plan|
    ensures InBounds(plan[j], blocks)
    ensures forall c :: c in PieceChunks(plan[j], blocks, kids, config, context) ==> c in ChunksOf(plan, blocks, kids, config, context)
    decreases |plan|
  {
    hide PieceChunks, InBounds;
    if j < |plan| - 1 {
      PieceIn(plan[..|plan| - 1], blocks, kids, config, context, j);
    }
  }

  /** A group chunk shows the text of each of its blocks and names it. */
  lemma {:induction false} GroupShows(blocks: seq<Stored>, kids: Kids, context: Context, i: nat)
    requires i < |blocks| && IsPlain(blocks[i]) && Trim(blocks[i].row.text) != ""
    ensures ChildShows(GroupChunkOf(blocks, kids, context), context.parent, ShownText(blocks[i]), [blocks[i].row.key])
  {
    var t, key := ShownText(blocks[i]), blocks[i].row.key;
    ShownLine(blocks[i], kids);
    ContainsSelf(t);
    TextContains(blocks, kids, i, t, t);
    TrimContains(TextOf(blocks, kids), t);
    if key != "" {
      assert key in KeysOf(blocks[i], kids);
      GroupKeys(blocks, kids, context, key);
    }
    hide TextOf, KeysOf, Trim, Trimmed, ShownText, Unique, BlockKeys, LinesOf;
  }

  /** The blocks around a command are the nearest ones on either side, up to the limit. */
  lemma ContextBlocks(blocks: seq<Stored>, at: nat, limit: nat)
    requires at < |blocks|
    ensures var n := |Before(blocks, at, limit)|; n == (if at < limit then at else limit) && Before(blocks, at, limit) == blocks[at - n..at]
    ensures var n := |Behind(blocks, at, limit)|;
            && n == (if |blocks| - at - 1 < limit then |blocks| - at - 1 else limit)
            && Behind(blocks, at, limit) == blocks[at + 1..at + 1 + n]
  {
  }

  /** A code chunk shows the command and names it. */
  lemma {:induction false} CodeShows(blocks: seq<Stored>, at: nat, limit: nat, context: Context)
    requires at < |blocks| && Trim(blocks[at].row.text) != ""
    ensures ChildShows(CodeChunkOf(blocks, at, limit, context), context.parent,
                       COMMAND + "\n" + Trim(blocks[at].row.text), [blocks[at].row.key])
  {
    var before, after, t := Before(blocks, at, limit), Behind(blocks, at, limit), COMMAND + "\n" + Trim(blocks[at].row.text);
    var key := blocks[at].row.key;
    assert t[0] == 'C' && t[|t| - 1] == Trim(blocks[at].row.text)[|Trim(blocks[at].row.text)| - 1];
    assert Trimmed(t);
    if key != "" {
      CodeKeys(blocks, at, limit, context, key);
    }
    CodeContent(blocks, at, limit, context);
    CommandParts(before, blocks[at].row.text, after);
    hide Trim, Trimmed, Join, Before, Behind, CommandText, TextOf, Unique, Keys;
    var parts := Part(BEFORE, before) + [t] + Part(BEHIND, after);
    assert parts[|Part(BEFORE, before)|] == t;
    ContainsSelf(t);
    LinesContain(parts, "\n\n", |Part(BEFORE, before)|, t);
  }

  // ---------- tables ----------

  lemma {:induction false} RowLineAt(rows: seq<Stored>, kids: Kids, header: Stored, start: nat, n: nat, d: nat)
    requires start <= d < start + n <= |rows|
    ensures |TableLines(rows, kids, header, start, n)| == n + 1
    ensures TableLines(rows, kids, header, start, n)[d - start + 1] == RowLine(d + 1, rows[d], kids)
    decreases n
  {
    hide RowText, RowLine;
    TableLinesNext(rows, kids, header, start, n);
    TableLinesStart(rows, kids, header, start);
    if d < start + n - 1 {
      RowLineAt(rows, kids, header, start, n - 1, d);
    } else if n > 1 {
      RowLineAt(rows, kids, header, start, n - 1, d - 1);
    }
  }

  lemma {:induction false} HeaderLineAt(rows: seq<Stored>, kids: Kids, header: Stored, start: nat, n: nat)
    requires start + n <= |rows|
    ensures TableLines(rows, kids, header, start, n) != []
    ensures TableLines(rows, kids, header, start, n)[0] == "Header: " + RowText(header, kids)
  {
    hide RowText;
    if n > 0 {
      HeaderLineAt(rows, kids, header, start, n - 1);
    }
  }

  lemma RowLineContains(number: nat, row: Stored, kids: Kids, t: string)
    requires Contains(RowText(row, kids), t)
    ensures Contains(RowLine(number, row, kids), t)
  {
    hide RowText, Contains, Decimal.Dec;
    var text := RowText(row, kids);
    ContainsWithin("Row " + Decimal.Dec(number) + ": ", text, "", t);
    Regroup("Row " + Decimal.Dec(number) + ": " + text, [], []);
  }

  lemma HeaderLineContains(text: string, t: string)
    requires Contains(text, t)
    ensures Contains("Header: " + text, t)
  {
    hide Contains;
    ContainsWithin("Header: ", text, "", t);
    Regroup("Header: " + text, [], []);
  }

  /** A table chunk shows what its data rows and its header show. */
  lemma {:induction false} TableChunkShows(table: Stored, header: Stored, rows: seq<Stored>, kids: Kids, start: nat, end: nat,
                                           context: Context, row: Stored, d: nat, t: string)
    requires start <= d < end <= |rows| && row in [header, rows[d]]
    requires Contains(RowText(row, kids), t) && Trimmed(t) && t != ""
    ensures Contains(TableChunkOf(table, header, rows, kids, start, end, context).content, t)
  {
    hide *;
    var lines := TableLines(rows, kids, header, start, end - start);
    TableContent(table, header, rows, kids, start, end, context);
    if row == header {
      HeaderLineAt(rows, kids, header, start, end - start);
      HeaderLineContains(RowText(row, kids), t);
      LinesContain(lines, "\n", 0, t);
    } else {
      RowLineAt(rows, kids, header, start, end - start, d);
      RowLineContains(d + 1, row, kids, t);
      LinesContain(lines, "\n", d - start + 1, t);
    }
  }

  lemma {:induction false} TableChunkNames(table: Stored, header: Stored, rows: seq<Stored>, kids: Kids, start: nat, end: nat,
                                           context: Context, row: Stored, d: nat, cell: Stored)
    requires start <= d < end <= |rows| && row in [header, rows[d]] && cell in KidsOf(kids, row.id)
    ensures Names(TableChunkOf(table, header, rows, kids, start, end, context), [table.row.key, row.row.key, cell.row.key])
  {
    var cells := KidsOf(kids, row.id);
    InKeys(cells, cell.row.key);
    var i :| 0 <= i < |cells| && cells[i] == cell;
    var chunk := TableChunkOf(table, header, rows, kids, start, end, context);
    hide TableChunkOf, Keys;
    forall v | v in [table.row.key, row.row.key, cell.row.key] && v != "" ensures v in chunk.keys {
      TableChunkKeys(table, header, rows, kids, start, end, context, v);
      assert v == table.row.key || RowHas(row, kids, v);
    }
  }

  lemma ChunkParent(table: Stored, header: Stored, rows: seq<Stored>, kids: Kids, start: nat, end: nat, context: Context)
    requires start <= end <= |rows|
    ensures TableChunkOf(table, header, rows, kids, start, end, context).parent == Some(context.parent)
  {
    hide Unique, TableKeys, Join, TableLines, Trim;
  }

  /** Every data row is in one of the chunks. */
  lemma {:induction false} RowFound(table: Stored, header: Stored, rows: seq<Stored>, kids: Kids, perChunk: nat, start: nat,
                                    context: Context, d: nat)
    returns (s: nat, e: nat)
    requires perChunk > 0 && start <= d < |rows|
    ensures s <= d < e <= |rows|
    ensures TableChunkOf(table, header, rows, kids, s, e, context)
            in RowChunks(table, header, rows, kids, perChunk, start, context)
    decreases |rows| - start
  {
    hide RowChunks, TableChunkOf;
    s, e := start, EndOfChunk(start, perChunk, |rows|);
    RowChunksStep(table, header, rows, kids, perChunk, start, context);
    if d >= e {
      s, e := RowFound(table, header, rows, kids, perChunk, start + perChunk, context, d);
    }
  }

  /** Some chunk of a table shows the text of a cell and names table, row and cell. */
  lemma {:induction false} TableShows(table: Stored, kids: Kids, perChunk: nat, context: Context, r: nat, c: nat)
    returns (chunk: Chunk)
    requires perChunk > 0
    requires r < |KidsOf(kids, table.id)| && c < |KidsOf(kids, KidsOf(kids, table.id)[r].id)|
    requires Trim(KidsOf(kids, KidsOf(kids, table.id)[r].id)[c].row.text) != ""
    ensures chunk in TableChunks(table, kids, perChunk, context)
    ensures var row := KidsOf(kids, table.id)[r]; var cell := KidsOf(kids, row.id)[c];
            ChildShows(chunk, context.parent, Trim(cell.row.text), [table.row.key, row.row.key, cell.row.key])
  {
    var rows := KidsOf(kids, table.id);
    var row := rows[r];
    var cell := KidsOf(kids, row.id)[c];
    CellIn(KidsOf(kids, row.id), c);
    assert Contains(RowText(row, kids), Trim(cell.row.text));
    var d := if r == 0 then 0 else r - 1;
    var data := DataRows(rows);
    assert row in [rows[0], data[d]];
    hide Trim, RowChunks, TableChunkOf, RowText, Contains, Names, DataRows, KidsOf;
    var s, e := RowFound(table, rows[0], data, kids, perChunk, 0, context, d);
    chunk := TableChunkOf(table, rows[0], data, kids, s, e, context);
    TableChunkShows(table, rows[0], data, kids, s, e, context, row, d, Trim(cell.row.text));
    TableChunkNames(table, rows[0], data, kids, s, e, context, row, d, cell);
    ChunkParent(table, rows[0], data, kids, s, e, context);
  }

  lemma RowLineShows(number: nat, row: Stored, kids: Kids)
    ensures Trimmed(Trim(RowLine(number, row, kids))) && Trim(RowLine(number, row, kids)) != ""
    ensures Contains(RowLine(number, row, kids), Trim(RowLine(number, row, kids)))
  {
    var line := RowLine(number, row, kids);
    hide RowText, Decimal.Dec;
    assert line[0] == 'R';
    InTrim(line, 'R');
    var before, behind := TrimTakesSpace(line);
    ContainsMiddle(before, Trim(line), behind);
  }

  lemma {:induction false} RowInChunk(table: Stored, header: Stored, rows: seq<Stored>, kids: Kids, start: nat, end: nat,
                                      context: Context, d: nat)
    requires start <= d < end <= |rows|
    ensures Contains(TableChunkOf(table, header, rows, kids, start, end, context).content, Trim(RowLine(d + 1, rows[d], kids)))
  {
    hide *;
    RowLineAt(rows, kids, header, start, end - start, d);
    RowLineShows(d + 1, rows[d], kids);
    LinesContain(TableLines(rows, kids, header, start, end - start), "\n", d - start + 1, Trim(RowLine(d + 1, rows[d], kids)));
    TableContent(table, header, rows, kids, start, end, context);
  }

  lemma TableHasRows(table: Stored, kids: Kids, perChunk: nat, context: Context, r: nat)
    requires perChunk > 0 && 1 <= r < |KidsOf(kids, table.id)|
    ensures var rows := KidsOf(kids, table.id); var data := DataRows(rows);
            && r - 1 < |data| && data[r - 1] == rows[r]
            && TableChunks(table, kids, perChunk, context) == RowChunks(table, rows[0], data, kids, perChunk, 0, context)
  {
    hide RowChunks;
  }

  lemma EndBehind(at: nat, perChunk: nat, n: nat, d: nat)
    requires at <= d < at + perChunk && d < n
    ensures d < EndOfChunk(at, perChunk, n) <= n
  {
  }

  /**
   * Row r of a table, which is not the header, stands as line "Row r" in a chunk of its table, the one numbered by the
   * rows in front of it.
   */
  lemma {:induction false} RowIsNumbered(table: Stored, kids: Kids, perChunk: nat, context: Context, r: nat, j: nat, at: nat)
    requires perChunk > 0 && 1 <= r < |KidsOf(kids, table.id)| && at == j * perChunk && at <= r - 1 < at + perChunk
    ensures j < |TableChunks(table, kids, perChunk, context)|
    ensures Contains(TableChunks(table, kids, perChunk, context)[j].content, Trim(RowLine(r, KidsOf(kids, table.id)[r], kids)))
  {
    hide *;
    var rows := KidsOf(kids, table.id);
    var data := DataRows(rows);
    TableHasRows(table, kids, perChunk, context, r);
    RowChunkAt(table, rows[0], data, kids, perChunk, 0, context, j, at);
    EndBehind(at, perChunk, |data|, r - 1);
    RowInChunk(table, rows[0], data, kids, at, EndOfChunk(at, perChunk, |data|), context, r - 1);
  }

  // ---------- a section in the list ----------

  /** The section's chunk is at `at`, and all its children are in the list. */
  ghost predicate SectionIn(chunks: seq<Chunk>, at: nat, plan: seq<Piece>, section: Section, kids: Kids, config: Config)
    requires config.tableRowsPerChunk > 0
  {
    && at < |chunks| && chunks[at] == SectionChunkOf(section, kids, at)
    && PlanOk(plan, section.blocks, kids, config) && AllInBounds(plan, section.blocks) && After(plan) == |section.blocks|
    && forall c :: c in ChunksOf(plan, section.blocks, kids, config, Context(section.path, at)) ==> c in chunks
  }

  /** Every section with text is in the list. */
  lemma {:induction false} SectionFound(chunks: seq<Chunk>, sections: seq<Section>, kids: Kids, config: Config, j: nat)
    returns (at: nat, plan: seq<Piece>)
    requires config.tableRowsPerChunk > 0 && Built(chunks, sections, kids, config)
    requires j < |sections| && TextOf(sections[j].blocks, kids) != ""
    ensures SectionIn(chunks, at, plan, sections[j], kids, config)
  {
    var before, last := sections[..|sections| - 1], sections[|sections| - 1];
    if TextOf(last.blocks, kids) == "" {
      at, plan := SectionFound(chunks, before, kids, config, j);
    } else {
      var lastAt: nat, lastPlan :|
        SectionAt(chunks, lastAt, lastPlan, last, kids, config) && Built(chunks[..lastAt], before, kids, config);
      hide TextOf, Built, PlanOk, AllInBounds, ChunksOf, SectionChunkOf;
      if j == |sections| - 1 {
        at, plan := lastAt, lastPlan;
      } else {
        at, plan := SectionFound(chunks[..lastAt], before, kids, config, j);
      }
    }
  }

  lemma SectionHolds(section: Section, kids: Kids, at: nat, t: string)
    requires Contains(TextOf(section.blocks, kids), t) && Trimmed(t) && t != ""
    ensures SectionChunkOf(section, kids, at).parent.None? && Contains(SectionChunkOf(section, kids, at).content, t)
  {
    TrimContains(TextOf(section.blocks, kids), t);
    hide TextOf, Unique, BlockKeys, Trim, Contains;
  }

  /** A chunk of the piece made from block i is in the list. */
  lemma {:induction false} PieceInList(chunks: seq<Chunk>, at: nat, plan: seq<Piece>, section: Section, kids: Kids, config: Config,
                                       i: nat) returns (piece: Piece)
    requires config.tableRowsPerChunk > 0 && SectionIn(chunks, at, plan, section, kids, config) && i < |section.blocks|
    ensures InBounds(piece, section.blocks) && Covers(piece, section.blocks, i)
    ensures forall c :: c in PieceChunks(piece, section.blocks, kids, config, Context(section.path, at)) ==> c in chunks
  {
    hide PlanOk, AllInBounds, InBounds, Covers, PieceChunks, ChunksOf, SectionChunkOf;
    var j := PieceOf(plan, section.blocks, kids, config, i);
    PieceIn(plan, section.blocks, kids, config, Context(section.path, at), j);
    piece := plan[j];
  }

  /** The section chunk holds the line of each block that is no table. */
  lemma {:induction false} BlockInSection(section: Section, kids: Kids, at: nat, i: nat)
    requires i < |section.blocks| && !IsTable(section.blocks[i]) && Trim(section.blocks[i].row.text) != ""
    ensures SectionChunkOf(section, kids, at).parent.None?
    ensures Contains(SectionChunkOf(section, kids, at).content, ShownText(section.blocks[i]))
    ensures TextOf(section.blocks, kids) != ""
  {
    hide Trim, Contains, TextOf, SectionChunkOf, ShownText, LinesOf;
    var t := ShownText(section.blocks[i]);
    ShownLine(section.blocks[i], kids);
    ContainsSelf(t);
    TextContains(section.blocks, kids, i, t, t);
    SectionHolds(section, kids, at, t);
  }

  lemma GroupPiece(piece: Piece, blocks: seq<Stored>, kids: Kids, config: Config, context: Context, i: nat)
    requires config.tableRowsPerChunk > 0 && i < |blocks| && InBounds(piece, blocks) && Covers(piece, blocks, i) && IsPlain(blocks[i])
    ensures piece.Group? && piece.from <= i < piece.to <= |blocks| && blocks[piece.from..piece.to][i - piece.from] == blocks[i]
    ensures GroupChunkOf(blocks[piece.from..piece.to], kids, context) in PieceChunks(piece, blocks, kids, config, context)
  {
    hide GroupChunkOf, CodeChunkOf, TableChunks;
  }

  lemma CodePiece(piece: Piece, blocks: seq<Stored>, kids: Kids, config: Config, context: Context, i: nat)
    requires config.tableRowsPerChunk > 0 && i < |blocks| && InBounds(piece, blocks) && Covers(piece, blocks, i) && IsCode(blocks[i])
    ensures CodeChunkOf(blocks, i, config.contextBlocks, context) in PieceChunks(piece, blocks, kids, config, context)
  {
    hide GroupChunkOf, CodeChunkOf, TableChunks;
  }

  lemma TablePiece(piece: Piece, blocks: seq<Stored>, kids: Kids, config: Config, context: Context, i: nat)
    requires config.tableRowsPerChunk > 0 && i < |blocks| && InBounds(piece, blocks) && Covers(piece, blocks, i) && IsTable(blocks[i])
    ensures PieceChunks(piece, blocks, kids, config, context) == TableChunks(blocks[i], kids, config.tableRowsPerChunk, context)
  {
    hide GroupChunkOf, CodeChunkOf, TableChunks;
  }

  lemma {:induction false} PlainChild(chunks: seq<Chunk>, at: nat, plan: seq<Piece>, section: Section, kids: Kids, config: Config,
                                      i: nat) returns (chunk: Chunk)
    requires config.tableRowsPerChunk > 0 && SectionIn(chunks, at, plan, section, kids, config) && i < |section.blocks|
    requires IsPlain(section.blocks[i]) && Trim(section.blocks[i].row.text) != ""
    ensures chunk in chunks && ChildShows(chunk, at, ShownText(section.blocks[i]), [section.blocks[i].row.key])
  {
    hide *;
    var blocks, context := section.blocks, Context(section.path, at);
    var piece := PieceInList(chunks, at, plan, section, kids, config, i);
    GroupPiece(piece, blocks, kids, config, context, i);
    var group := blocks[piece.from..piece.to];
    GroupShows(group, kids, context, i - piece.from);
    chunk := GroupChunkOf(group, kids, context);
  }

  lemma {:induction false} CodeChild(chunks: seq<Chunk>, at: nat, plan: seq<Piece>, section: Section, kids: Kids, config: Config,
                                     i: nat) returns (chunk: Chunk)
    requires config.tableRowsPerChunk > 0 && SectionIn(chunks, at, plan, section, kids, config) && i < |section.blocks|
    requires IsCode(section.blocks[i]) && Trim(section.blocks[i].row.text) != ""
    ensures chunk in chunks
    ensures ChildShows(chunk, at, COMMAND + "\n" + Trim(section.blocks[i].row.text), [section.blocks[i].row.key])
  {
    hide *;
    var piece := PieceInList(chunks, at, plan, section, kids, config, i);
    CodePiece(piece, section.blocks, kids, config, Context(section.path, at), i);
    CodeShows(section.blocks, i, config.contextBlocks, Context(section.path, at));
    chunk := CodeChunkOf(section.blocks, i, config.contextBlocks, Context(section.path, at));
  }

  lemma ShowsLess(chunk: Chunk, p: nat, a: string, t: string, keys: seq<string>)
    requires ChildShows(chunk, p, a + t, keys)
    ensures ChildShows(chunk, p, t, keys)
  {
    hide Contains, Names;
    ContainsSelf(t);
    ContainsWithin(a, t, "", t);
    Regroup(a + t, [], []);
    ContainsTrans(chunk.content, a + t, t);
  }

  lemma {:induction false} TextShown(chunks: seq<Chunk>, at: nat, plan: seq<Piece>, section: Section, kids: Kids, config: Config,
                                     i: nat)
    requires config.tableRowsPerChunk > 0 && SectionIn(chunks, at, plan, section, kids, config) && i < |section.blocks|
    requires !IsTable(section.blocks[i]) && Trim(section.blocks[i].row.text) != ""
    ensures Shown(chunks, at, ShownText(section.blocks[i]), [section.blocks[i].row.key])
  {
    var block := section.blocks[i];
    BlockInSection(section, kids, at, i);
    assert IsCode(block) ==> ShownText(block) == Trim(block.row.text);
    hide Trim, ShownText, ChildShows, PlanOk, AllInBounds, After, ChunksOf, SectionChunkOf, Contains;
    if IsCode(block) {
      var chunk := CodeChild(chunks, at, plan, section, kids, config, i);
      ShowsLess(chunk, at, COMMAND + "\n", ShownText(block), [block.row.key]);
    } else {
      var chunk := PlainChild(chunks, at, plan, section, kids, config, i);
    }
  }

  lemma {:induction false} CellChild(chunks: seq<Chunk>, at: nat, plan: seq<Piece>, section: Section, kids: Kids, config: Config,
                                     i: nat, r: nat, c: nat) returns (chunk: Chunk)
    requires config.tableRowsPerChunk > 0 && SectionIn(chunks, at, plan, section, kids, config) && i < |section.blocks|
    requires IsTable(section.blocks[i])
    requires r < |KidsOf(kids, section.blocks[i].id)| && c < |KidsOf(kids, KidsOf(kids, section.blocks[i].id)[r].id)|
    requires Trim(KidsOf(kids, KidsOf(kids, section.blocks[i].id)[r].id)[c].row.text) != ""
    ensures chunk in chunks
    ensures var row := KidsOf(kids, section.blocks[i].id)[r]; var cell := KidsOf(kids, row.id)[c];
            ChildShows(chunk, at, Trim(cell.row.text), [section.blocks[i].row.key, row.row.key, cell.row.key])
  {
    hide *;
    var context := Context(section.path, at);
    var piece := PieceInList(chunks, at, plan, section, kids, config, i);
    TablePiece(piece, section.blocks, kids, config, context, i);
    chunk := TableShows(section.blocks[i], kids, config.tableRowsPerChunk, context, r, c);
  }

  lemma {:induction false} CellShown(chunks: seq<Chunk>, at: nat, plan: seq<Piece>, section: Section, kids: Kids, config: Config,
                                     i: nat, r: nat, c: nat)
    requires config.tableRowsPerChunk > 0 && SectionIn(chunks, at, plan, section, kids, config) && i < |section.blocks|
    requires IsTable(section.blocks[i])
    requires r < |KidsOf(kids, section.blocks[i].id)| && c < |KidsOf(kids, KidsOf(kids, section.blocks[i].id)[r].id)|
    requires Trim(KidsOf(kids, KidsOf(kids, section.blocks[i].id)[r].id)[c].row.text) != ""
    ensures var row := KidsOf(kids, section.blocks[i].id)[r]; var cell := KidsOf(kids, row.id)[c];
            Shown(chunks, at, Trim(cell.row.text), [section.blocks[i].row.key, row.row.key, cell.row.key])
  {
    CellInText(section.blocks, kids, i, r, c);
    hide TextOf, Trim, ChildShows, PlanOk, AllInBounds, After, ChunksOf, SectionChunkOf, Contains, KidsOf, IsTable;
    SectionHolds(section, kids, at, Trim(KidsOf(kids, KidsOf(kids, section.blocks[i].id)[r].id)[c].row.text));
    var chunk := CellChild(chunks, at, plan, section, kids, config, i, r, c);
  }

  lemma {:induction false} CellInText(blocks: seq<Stored>, kids: Kids, i: nat, r: nat, c: nat)
    requires i < |blocks| && IsTable(blocks[i])
    requires r < |KidsOf(kids, blocks[i].id)| && c < |KidsOf(kids, KidsOf(kids, blocks[i].id)[r].id)|
    requires Trim(KidsOf(kids, KidsOf(kids, blocks[i].id)[r].id)[c].row.text) != ""
    ensures Contains(TextOf(blocks, kids), Trim(KidsOf(kids, KidsOf(kids, blocks[i].id)[r].id)[c].row.text))
    ensures TextOf(blocks, kids) != ""
  {
    var rows := KidsOf(kids, blocks[i].id);
    var t := Trim(KidsOf(kids, rows[r].id)[c].row.text);
    var line := RowText(rows[r], kids);
    CellIn(KidsOf(kids, rows[r].id), c);
    NotEmpty(line, t);
    RowIn(rows, kids, r);
    assert line in LinesOf(blocks[i], kids);
    hide RowText, RowTexts, LinesOf, TextOf, Contains;
    TextContains(blocks, kids, i, line, t);
  }

  /** A table without rows gives one chunk, which is its own text. */
  lemma {:induction false} RowlessChild(chunks: seq<Chunk>, at: nat, plan: seq<Piece>, section: Section, kids: Kids, config: Config,
                                        i: nat) returns (chunk: Chunk)
    requires config.tableRowsPerChunk > 0 && SectionIn(chunks, at, plan, section, kids, config) && i < |section.blocks|
    requires IsTable(section.blocks[i]) && KidsOf(kids, section.blocks[i].id) == []
    ensures chunk in chunks && chunk.parent == Some(at) && Names(chunk, [section.blocks[i].row.key])
    ensures chunk.content == Trim(section.blocks[i].row.text)
  {
    hide *;
    var context := Context(section.path, at);
    var piece := PieceInList(chunks, at, plan, section, kids, config, i);
    TablePiece(piece, section.blocks, kids, config, context, i);
    chunk := RowlessChunk(section.blocks[i], kids, config.tableRowsPerChunk, context);
  }

  lemma RowlessChunk(table: Stored, kids: Kids, perChunk: nat, context: Context) returns (chunk: Chunk)
    requires perChunk > 0 && KidsOf(kids, table.id) == []
    ensures TableChunks(table, kids, perChunk, context) == [chunk]
    ensures chunk.parent == Some(context.parent) && Names(chunk, [table.row.key]) && chunk.content == Trim(table.row.text)
  {
    TrimOfTrimmed(Trim(table.row.text));
    hide Trim;
    chunk := TableChunks(table, kids, perChunk, context)[0];
  }

  // ---------- from the stored blocks to their section ----------

  lemma {:induction false} RootsHold(blocks: seq<Stored>, block: Stored)
    ensures block in RootsOf(blocks) <==> block in blocks && block.parent.None?
  {
    if blocks != [] {
      RootsHold(blocks[..|blocks| - 1], block);
      assert blocks == blocks[..|blocks| - 1] + [blocks[|blocks| - 1]];
    }
  }

  lemma {:induction false} ChildrenHold(blocks: seq<Stored>, id: int, block: Stored)
    ensures block in ChildrenWith(blocks, id) <==> block in blocks && block.parent == Some(id)
  {
    if blocks != [] {
      ChildrenHold(blocks[..|blocks| - 1], id, block);
      assert blocks == blocks[..|blocks| - 1] + [blocks[|blocks| - 1]];
    }
  }

  lemma {:induction false} InOrderHolds(blocks: seq<Stored>, block: Stored)
    ensures block in InOrder(blocks) <==> block in blocks
  {
    var leq := (a: Stored, b: Stored) => a.row.order <= b.row.order;
    Sorting.SortSorts(blocks, leq);
    assert block in multiset(blocks) <==> block in multiset(InOrder(blocks));
  }

  lemma {:induction false} WithKeyHolds(roots: seq<Stored>, key: string, block: Stored)
    ensures block in WithKey(roots, key) <==> block in roots && BlockKey(block) == key
  {
    hide BlockKey;
    if roots != [] {
      WithKeyHolds(roots[..|roots| - 1], key, block);
      assert roots == roots[..|roots| - 1] + [roots[|roots| - 1]];
    }
  }

  /** The path of a section is filed like each of its blocks. */
  lemma {:induction false} SectionOf(sections: seq<Section>, roots: seq<Stored>, block: Stored) returns (j: nat)
    requires Partition(sections, roots) && block in roots
    ensures j < |sections| && block in sections[j].blocks && KeyOf(sections[j].path) == BlockKey(block)
  {
    hide PathOf, KeyOf;
    KeyOrderFacts(roots);
    var i: nat :| i < |roots| && roots[i] == block;
    var key := BlockKey(block);
    assert key in KeyOrder(roots);
    j :| 0 <= j < |KeyOrder(roots)| && KeyOrder(roots)[j] == key;
    assert Holds(sections[j], roots, key);
    WithKeyHolds(roots, key, block);
    WithKeyHolds(roots, key, sections[j].blocks[0]);
  }

  // ---------- the whole list ----------

  /** The path a root block is filed under: its own, or its text for a heading without one. */
  ghost predicate FiledUnder(path: seq<string>, block: Stored) {
    && (block.row.path != [] ==> KeyOf(path) == KeyOf(block.row.path))
    && (block.row.path == [] ==>
          KeyOf(path) == KeyOf(if block.row.kind == "heading" && Trim(block.row.text) != "" then [Trim(block.row.text)] else []))
  }

  /** The line of the block stands in the chunk of its section, and in a child of that chunk which names the block. */
  ghost predicate BlockShown(chunks: seq<Chunk>, block: Stored) {
    exists p: nat ::
      && p < |chunks| && FiledUnder(chunks[p].path, block)
      && Shown(chunks, p, ShownText(block), [block.row.key])
  }

  /** Nothing with text is lost: every root block that is no table. */
  ghost predicate BlocksShown(chunks: seq<Chunk>, blocks: seq<Stored>) {
    forall b :: b in blocks && b.parent.None? && !IsTable(b) && Trim(b.row.text) != "" ==> BlockShown(chunks, b)
  }

  ghost predicate CellOfTable(table: Stored, row: Stored, cell: Stored) {
    table.parent.None? && IsTable(table) && row.parent == Some(table.id) && cell.parent == Some(row.id)
  }

  ghost predicate TextOfCellShown(chunks: seq<Chunk>, table: Stored, row: Stored, cell: Stored) {
    exists p: nat ::
      && p < |chunks| && FiledUnder(chunks[p].path, table)
      && Shown(chunks, p, Trim(cell.row.text), [table.row.key, row.row.key, cell.row.key])
  }

  /** Every cell with text of every table, in a child that names table, row and cell. */
  ghost predicate CellsShown(chunks: seq<Chunk>, blocks: seq<Stored>) {
    forall t, r, c :: t in blocks && r in blocks && c in blocks && CellOfTable(t, r, c) && Trim(c.row.text) != "" ==>
      TextOfCellShown(chunks, t, r, c)
  }

  ghost predicate CommandShown(chunks: seq<Chunk>, block: Stored) {
    exists p: nat, c ::
      && p < |chunks| && chunks[p].parent.None? && FiledUnder(chunks[p].path, block)
      && c in chunks && ChildShows(c, p, COMMAND + "\n" + Trim(block.row.text), [block.row.key])
  }

  /** Every command with text, behind its title, in a child that names it. */
  ghost predicate CommandsShown(chunks: seq<Chunk>, blocks: seq<Stored>) {
    forall b :: b in blocks && b.parent.None? && IsCode(b) && Trim(b.row.text) != "" ==> CommandShown(chunks, b)
  }

  ghost predicate TableTextShown(chunks: seq<Chunk>, table: Stored) {
    exists p: nat, c ::
      && p < |chunks| && chunks[p].parent.None? && FiledUnder(chunks[p].path, table)
      && c in chunks && c.parent == Some(p) && Names(c, [table.row.key]) && c.content == Trim(table.row.text)
  }

  /** A root block without rows, which is a table, next to a block with text in the same section. */
  ghost predicate RowlessBeside(blocks: seq<Stored>, table: Stored, other: Stored) {
    && table in blocks && other in blocks && table.parent.None? && other.parent.None?
    && IsTable(table) && (forall b :: b in blocks ==> b.parent != Some(table.id))
    && !IsTable(other) && Trim(other.row.text) != "" && BlockKey(other) == BlockKey(table)
  }

  /** The text of a table without rows is in a child that names it, if its section has other text. */
  ghost predicate RowlessShown(chunks: seq<Chunk>, blocks: seq<Stored>) {
    forall t, b :: RowlessBeside(blocks, t, b) ==> TableTextShown(chunks, t)
  }

  lemma FiledByKey(path: seq<string>, block: Stored)
    requires KeyOf(path) == BlockKey(block)
    ensures FiledUnder(path, block)
  {
  }

  lemma {:induction false} RootSection(sections: seq<Section>, blocks: seq<Stored>, block: Stored) returns (j: nat, i: nat)
    requires Partition(sections, InOrder(RootsOf(blocks))) && block in blocks && block.parent.None?
    ensures j < |sections| && i < |sections[j].blocks| && sections[j].blocks[i] == block
    ensures FiledUnder(sections[j].path, block)
  {
    RootsHold(blocks, block);
    InOrderHolds(RootsOf(blocks), block);
    hide InOrder, Partition, FiledUnder;
    j := SectionOf(sections, InOrder(RootsOf(blocks)), block);
    i :| 0 <= i < |sections[j].blocks| && sections[j].blocks[i] == block;
    FiledByKey(sections[j].path, block);
  }

  lemma SectionPath(section: Section, kids: Kids, at: nat)
    ensures SectionChunkOf(section, kids, at).path == section.path && SectionChunkOf(section, kids, at).parent.None?
  {
  }

  lemma {:induction false} OneBlockShown(blocks: seq<Stored>, raw: seq<Chunk>, sections: seq<Section>, kids: Kids, config: Config,
                                         block: Stored)
    requires config.tableRowsPerChunk > 0 && Partition(sections, InOrder(RootsOf(blocks))) && Built(raw, sections, kids, config)
    requires block in blocks && block.parent.None? && !IsTable(block) && Trim(block.row.text) != ""
    ensures BlockShown(raw, block)
    ensures IsCode(block) ==> CommandShown(raw, block)
  {
    hide Partition, InOrder, RootsOf, Built, Trim, FiledUnder, ShownText, IsTable, IsCode, Shown, ChildShows, PlanOk, AllInBounds,
         After, ChunksOf, SectionChunkOf, TextOf, Contains;
    var j, i := RootSection(sections, blocks, block);
    BlockInSection(sections[j], kids, 0, i);
    var at, plan := SectionFound(raw, sections, kids, config, j);
    SectionPath(sections[j], kids, at);
    TextShown(raw, at, plan, sections[j], kids, config, i);
    if IsCode(block) {
      var chunk := CodeChild(raw, at, plan, sections[j], kids, config, i);
    }
  }

  lemma {:induction false} OneCellShown(blocks: seq<Stored>, raw: seq<Chunk>, sections: seq<Section>, kids: Kids, config: Config,
                                        t: Stored, r: Stored, c: Stored)
    requires config.tableRowsPerChunk > 0 && ByParent(kids, blocks)
    requires Partition(sections, InOrder(RootsOf(blocks))) && Built(raw, sections, kids, config)
    requires t in blocks && r in blocks && c in blocks && CellOfTable(t, r, c) && Trim(c.row.text) != ""
    ensures TextOfCellShown(raw, t, r, c)
  {
    hide Partition, InOrder, RootsOf, Built, Trim, FiledUnder, IsTable, Shown, ChildShows, PlanOk, AllInBounds,
         After, ChunksOf, SectionChunkOf, TextOf, Contains, ChildrenWith, KidsOf;
    var j, i := RootSection(sections, blocks, t);
    ChildrenHold(blocks, t.id, r);
    ChildrenHold(blocks, r.id, c);
    assert KidsOf(kids, t.id) == ChildrenWith(blocks, t.id) && KidsOf(kids, r.id) == ChildrenWith(blocks, r.id);
    var n: nat :| n < |KidsOf(kids, t.id)| && KidsOf(kids, t.id)[n] == r;
    var m: nat :| m < |KidsOf(kids, r.id)| && KidsOf(kids, r.id)[m] == c;
    CellInText(sections[j].blocks, kids, i, n, m);
    var at, plan := SectionFound(raw, sections, kids, config, j);
    SectionPath(sections[j], kids, at);
    CellShown(raw, at, plan, sections[j], kids, config, i, n, m);
  }

  lemma {:induction false} SameSection(sections: seq<Section>, roots: seq<Stored>, j: nat, a: Stored, b: Stored) returns (i: nat)
    requires Partition(sections, roots) && j < |sections| && a in sections[j].blocks && b in roots && BlockKey(a) == BlockKey(b)
    ensures i < |sections[j].blocks| && sections[j].blocks[i] == b
  {
    hide BlockKey;
    assert Holds(sections[j], roots, KeyOrder(roots)[j]);
    WithKeyHolds(roots, KeyOrder(roots)[j], a);
    WithKeyHolds(roots, KeyOrder(roots)[j], b);
    i :| 0 <= i < |sections[j].blocks| && sections[j].blocks[i] == b;
  }

  lemma {:induction false} OneRowlessShown(blocks: seq<Stored>, raw: seq<Chunk>, sections: seq<Section>, kids: Kids, config: Config,
                                           t: Stored, b: Stored)
    requires config.tableRowsPerChunk > 0 && ByParent(kids, blocks)
    requires Partition(sections, InOrder(RootsOf(blocks))) && Built(raw, sections, kids, config)
    requires RowlessBeside(blocks, t, b)
    ensures TableTextShown(raw, t)
  {
    hide Partition, InOrder, RootsOf, Built, Trim, FiledUnder, IsTable, PlanOk, AllInBounds, BlockKey,
         After, ChunksOf, SectionChunkOf, TextOf, ChildrenWith, KidsOf, Names, Contains, ShownText;
    var j, i := RootSection(sections, blocks, t);
    RootsHold(blocks, b);
    InOrderHolds(RootsOf(blocks), b);
    var k := SameSection(sections, InOrder(RootsOf(blocks)), j, t, b);
    NoChildren(kids, blocks, t.id);
    BlockInSection(sections[j], kids, 0, k);
    var at, plan := SectionFound(raw, sections, kids, config, j);
    SectionPath(sections[j], kids, at);
    var chunk := RowlessChild(raw, at, plan, sections[j], kids, config, i);
  }

  lemma {:induction false} NoChildren(kids: Kids, blocks: seq<Stored>, id: int)
    requires ByParent(kids, blocks) && forall b :: b in blocks ==> b.parent != Some(id)
    ensures KidsOf(kids, id) == []
  {
    hide KidsOf, ChildrenWith;
    assert KidsOf(kids, id) == ChildrenWith(blocks, id);
    if ChildrenWith(blocks, id) != [] {
      ChildrenHold(blocks, id, ChildrenWith(blocks, id)[0]);
    }
  }

  lemma OneRootInOrder(block: Stored)
    requires block.parent.None?
    ensures InOrder(RootsOf([block])) == [block]
  {
    assert [block][..0] == [];
    assert RootsOf([block]) == [block];
    Sorting.SortOfSorted([block], (a: Stored, b: Stored) => a.row.order <= b.row.order);
  }

  lemma OneSection(block: Stored)
    requires BlockKey(block) == "" && PathOf(block) == []
    ensures Partition([Section([], [block])], [block])
  {
    hide BlockKey, PathOf;
    assert [block][..0] == [];
    assert KeyOrder([block]) == [""] && WithKey([block], "") == [block];
    assert Holds(Section([], [block]), [block], "");
  }

  lemma NoText(table: Stored)
    requires IsTable(table)
    ensures TextOf([table], map[]) == ""
  {
    assert [table][..0] == [];
    assert BlockLines([table], map[]) == LinesOf(table, map[]);
  }

  lemma NobodysChild(block: Stored)
    requires block.parent.None?
    ensures ByParent(map[], [block])
  {
    assert [block][..0] == [];
    forall id ensures KidsOf(map[], id) == ChildrenWith([block], id) {
    }
  }

  lemma NothingBuilt(section: Section, kids: Kids, config: Config)
    requires config.tableRowsPerChunk > 0 && TextOf(section.blocks, kids) == ""
    ensures Built([], [section], kids, config)
  {
    hide TextOf, SectionAt;
    assert [section][..0] == [];
  }

  /** Without other text in its section, a table without rows is left out of the list: here of a document of one table. */
  lemma LostTable(config: Config) returns (table: Stored)
    requires config.tableRowsPerChunk > 0
    ensures table.parent.None? && IsTable(table) && Trim(table.row.text) != ""
    ensures ByParent(map[], [table]) && Partition([Section([], [table])], InOrder(RootsOf([table])))
    ensures Built([], [Section([], [table])], map[], config)
  {
    table := Stored(1, None, Row("block-000001", None, "table", 0, 1, None, [], "a", map[]));
    assert IsTable(table) && Trim(table.row.text) != "" && PathOf(table) == [] && BlockKey(table) == "";
    hide *;
    OneRootInOrder(table);
    OneSection(table);
    NoText(table);
    NobodysChild(table);
    NothingBuilt(Section([], [table]), map[], config);
  }

  lemma {:induction false} ListShows(blocks: seq<Stored>, raw: seq<Chunk>, sections: seq<Section>, kids: Kids, config: Config)
    requires config.tableRowsPerChunk > 0 && ByParent(kids, blocks)
    requires Partition(sections, InOrder(RootsOf(blocks))) && Built(raw, sections, kids, config)
    ensures BlocksShown(raw, blocks) && CellsShown(raw, blocks) && CommandsShown(raw, blocks) && RowlessShown(raw, blocks)
  {
    forall t, b | RowlessBeside(blocks, t, b) ensures TableTextShown(raw, t) {
      OneRowlessShown(blocks, raw, sections, kids, config, t, b);
    }
    forall b | b in blocks && b.parent.None? && !IsTable(b) && Trim(b.row.text) != ""
      ensures BlockShown(raw, b) && (IsCode(b) ==> CommandShown(raw, b))
    {
      OneBlockShown(blocks, raw, sections, kids, config, b);
    }
    forall t, r, c | t in blocks && r in blocks && c in blocks && CellOfTable(t, r, c) && Trim(c.row.text) != ""
      ensures TextOfCellShown(raw, t, r, c)
    {
      OneCellShown(blocks, raw, sections, kids, config, t, r, c);
    }
    hide ByParent, Partition, InOrder, RootsOf, Built, Trim, CellOfTable, BlockShown, TextOfCellShown, CommandShown, RowlessBeside,
         TableTextShown;
  }

  // ---------- numbering ----------

  lemma {:induction false} NumberedShown(chunks: seq<Chunk>, raw: seq<Chunk>, p: nat, text: string, keys: seq<string>)
    requires Numbered(chunks, raw)
    ensures Shown(raw, p, text, keys) ==> Shown(chunks, p, text, keys)
    ensures (exists c :: c in raw && ChildShows(c, p, text, keys)) ==> exists c :: c in chunks && ChildShows(c, p, text, keys)
  {
    hide Contains;
    if c :| c in raw && ChildShows(c, p, text, keys) {
      var i: nat :| i < |raw| && raw[i] == c;
      assert chunks[i] in chunks && ChildShows(chunks[i], p, text, keys);
    }
  }

  lemma {:induction false} NumberedShows(blocks: seq<Stored>, chunks: seq<Chunk>, raw: seq<Chunk>)
    requires Numbered(chunks, raw)
    ensures BlocksShown(raw, blocks) ==> BlocksShown(chunks, blocks)
    ensures CellsShown(raw, blocks) ==> CellsShown(chunks, blocks)
    ensures CommandsShown(raw, blocks) ==> CommandsShown(chunks, blocks)
    ensures RowlessShown(raw, blocks) ==> RowlessShown(chunks, blocks)
  {
    forall t ensures TableTextShown(raw, t) ==> TableTextShown(chunks, t) {
      NumberedTable(chunks, raw, t);
    }
    forall b ensures BlockShown(raw, b) ==> BlockShown(chunks, b) {
      NumberedBlock(chunks, raw, b);
    }
    forall b ensures CommandShown(raw, b) ==> CommandShown(chunks, b) {
      NumberedCommand(chunks, raw, b);
    }
    forall t, r, c ensures TextOfCellShown(raw, t, r, c) ==> TextOfCellShown(chunks, t, r, c) {
      NumberedCell(chunks, raw, t, r, c);
    }
    hide BlockShown, CommandShown, TextOfCellShown, CellOfTable, Trim, TableTextShown, RowlessBeside;
  }

  lemma {:induction false} NumberedBlock(chunks: seq<Chunk>, raw: seq<Chunk>, b: Stored)
    requires Numbered(chunks, raw)
    ensures BlockShown(raw, b) ==> BlockShown(chunks, b)
  {
    hide FiledUnder, Shown, ShownText;
    if p: nat :| p < |raw| && FiledUnder(raw[p].path, b) && Shown(raw, p, ShownText(b), [b.row.key]) {
      NumberedShown(chunks, raw, p, ShownText(b), [b.row.key]);
    }
  }

  lemma {:induction false} NumberedCommand(chunks: seq<Chunk>, raw: seq<Chunk>, b: Stored)
    requires Numbered(chunks, raw)
    ensures CommandShown(raw, b) ==> CommandShown(chunks, b)
  {
    hide FiledUnder, ChildShows, Trim;
    var text := COMMAND + "\n" + Trim(b.row.text);
    if p: nat, c :| p < |raw| && raw[p].parent.None? && FiledUnder(raw[p].path, b) && c in raw && ChildShows(c, p, text, [b.row.key]) {
      NumberedShown(chunks, raw, p, text, [b.row.key]);
    }
  }

  lemma {:induction false} NumberedTable(chunks: seq<Chunk>, raw: seq<Chunk>, t: Stored)
    requires Numbered(chunks, raw)
    ensures TableTextShown(raw, t) ==> TableTextShown(chunks, t)
  {
    hide FiledUnder, Trim;
    if p: nat, c :| p < |raw| && raw[p].parent.None? && FiledUnder(raw[p].path, t)
                    && c in raw && c.parent == Some(p) && Names(c, [t.row.key]) && c.content == Trim(t.row.text) {
      var i: nat :| i < |raw| && raw[i] == c;
      assert chunks[i] in chunks && Names(chunks[i], [t.row.key]);
    }
  }

  lemma {:induction false} NumberedCell(chunks: seq<Chunk>, raw: seq<Chunk>, t: Stored, r: Stored, c: Stored)
    requires Numbered(chunks, raw)
    ensures TextOfCellShown(raw, t, r, c) ==> TextOfCellShown(chunks, t, r, c)
  {
    hide FiledUnder, Shown, Trim;
    var keys := [t.row.key, r.row.key, c.row.key];
    if p: nat :| p < |raw| && FiledUnder(raw[p].path, t) && Shown(raw, p, Trim(c.row.text), keys) {
      NumberedShown(chunks, raw, p, Trim(c.row.text), keys);
    }
  }
}
