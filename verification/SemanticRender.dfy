/** Rendering stored blocks: the text of a chunk, the keys of the blocks it comes from, its pages. */
module SemanticRender {
  import opened Wrappers
  import opened Text
  import opened BlockTree

  type Kids = map<int, seq<Stored>>

  function KidsOf(kids: Kids, id: int): seq<Stored> {
    if id in kids then kids[id] else []
  }

  predicate IsTable(block: Stored) {
    block.row.kind == "table"
  }

  predicate IsCode(block: Stored) {
    block.row.kind == "code_block" || block.row.kind == "command_block"
  }

  predicate IsPlain(block: Stored) {
    !IsTable(block) && !IsCode(block)
  }

  // ---------- unique keys ----------

  /** The values that are not empty, each at its first place only. */
  function Unique(values: seq<string>): seq<string> {
    if values == [] then []
    else
      var before := Unique(values[..|values| - 1]);
      var last := values[|values| - 1];
      if last == "" || last in before then before else before + [last]
  }

  method UniqueStrings(values: seq<string>) returns (result: seq<string>)
    ensures result == Unique(values)
  {
    result := [];
    var seen: set<string> := {};
    for i := 0 to |values|
      invariant result == Unique(values[..i])
      invariant forall v :: v in seen <==> v in result
    {
      assert values[..i + 1][..i] == values[..i];
      if values[i] != "" && values[i] !in seen {
        seen := seen + {values[i]};
        result := result + [values[i]];
      }
    }
    assert values[..|values|] == values;
  }

  /** Exactly the values that are not empty, and none twice. */
  lemma {:induction false} UniqueFacts(values: seq<string>)
    ensures forall v :: v in Unique(values) <==> v in values && v != ""
    ensures forall i, j :: 0 <= i < j < |Unique(values)| ==> Unique(values)[i] != Unique(values)[j]
  {
    if values != [] {
      UniqueFacts(values[..|values| - 1]);
      assert values == values[..|values| - 1] + [values[|values| - 1]];
    }
  }

  // ---------- keys ----------

  function Keys(blocks: seq<Stored>): seq<string> {
    if blocks == [] then [] else Keys(blocks[..|blocks| - 1]) + [blocks[|blocks| - 1].row.key]
  }

  /** The keys of rows, each followed by those of its cells. */
  function RowKeys(rows: seq<Stored>, kids: Kids): seq<string> {
    if rows == [] then []
    else
      var last := rows[|rows| - 1];
      RowKeys(rows[..|rows| - 1], kids) + ([last.row.key] + Keys(KidsOf(kids, last.id)))
  }

  /** The key of a block, for a table followed by those of its rows and cells. */
  function KeysOf(block: Stored, kids: Kids): seq<string> {
    [block.row.key] + if IsTable(block) then RowKeys(KidsOf(kids, block.id), kids) else []
  }

  function BlockKeys(blocks: seq<Stored>, kids: Kids): seq<string> {
    if blocks == [] then [] else BlockKeys(blocks[..|blocks| - 1], kids) + KeysOf(blocks[|blocks| - 1], kids)
  }

  // ---------- texts ----------

  function CellTexts(cells: seq<Stored>): seq<string> {
    if cells == [] then [] else CellTexts(cells[..|cells| - 1]) + [Trim(cells[|cells| - 1].row.text)]
  }

  function RowText(row: Stored, kids: Kids): string {
    Join(CellTexts(KidsOf(kids, row.id)), " | ")
  }

  function RowTexts(rows: seq<Stored>, kids: Kids): seq<string> {
    if rows == [] then []
    else
      var text := RowText(rows[|rows| - 1], kids);
      RowTexts(rows[..|rows| - 1], kids) + if text != "" then [text] else []
  }

  function Hashes(n: nat): string {
    if n == 0 then "" else "#" + Hashes(n - 1)
  }

  function LinesOf(block: Stored, kids: Kids): seq<string> {
    if IsTable(block) then RowTexts(KidsOf(kids, block.id), kids)
    else
      var text := Trim(block.row.text);
      if text == "" then []
      else if block.row.kind == "heading" then [Hashes(if block.row.level > 1 then block.row.level else 1) + " " + text]
      else [text]
  }

  function BlockLines(blocks: seq<Stored>, kids: Kids): seq<string> {
    if blocks == [] then [] else BlockLines(blocks[..|blocks| - 1], kids) + LinesOf(blocks[|blocks| - 1], kids)
  }

  function TextOf(blocks: seq<Stored>, kids: Kids): string {
    Trim(Join(BlockLines(blocks, kids), "\n\n"))
  }

  /** `renderTableRow`. */
  method RenderTableRow(row: Stored, kids: Kids) returns (text: string, keys: seq<string>)
    ensures text == RowText(row, kids) && keys == Keys(KidsOf(kids, row.id))
  {
    var children := KidsOf(kids, row.id);
    var cells: seq<string> := [];
    keys := [];
    for i := 0 to |children|
      invariant cells == CellTexts(children[..i]) && keys == Keys(children[..i])
    {
      assert children[..i + 1][..i] == children[..i];
      cells := cells + [Trim(children[i].row.text)];
      keys := keys + [children[i].row.key];
    }
    assert children[..|children|] == children;
    text := Join(cells, " | ");
  }

  method RenderRows(rows: seq<Stored>, kids: Kids) returns (lines: seq<string>, keys: seq<string>)
    ensures lines == RowTexts(rows, kids) && keys == RowKeys(rows, kids)
  {
    lines, keys := [], [];
    for i := 0 to |rows|
      invariant lines == RowTexts(rows[..i], kids) && keys == RowKeys(rows[..i], kids)
    {
      assert rows[..i + 1][..i] == rows[..i];
      var text, cellKeys := RenderTableRow(rows[i], kids);
      if text != "" {
        lines := lines + [text];
      }
      keys := keys + ([rows[i].row.key] + cellKeys);
    }
    assert rows[..|rows|] == rows;
  }

  method RenderBlock(block: Stored, kids: Kids) returns (lines: seq<string>, keys: seq<string>)
    ensures lines == LinesOf(block, kids) && keys == KeysOf(block, kids)
  {
    lines, keys := [], [block.row.key];
    if IsTable(block) {
      var rowLines, rowKeys := RenderRows(KidsOf(kids, block.id), kids);
      return rowLines, keys + rowKeys;
    }
    var text := Trim(block.row.text);
    if text != "" {
      if block.row.kind == "heading" {
        text := Hashes(if block.row.level > 1 then block.row.level else 1) + " " + text;
      }
      lines := [text];
    }
  }

  /** `renderBlocks`. */
  method RenderBlocks(blocks: seq<Stored>, kids: Kids) returns (text: string, keys: seq<string>)
    ensures text == TextOf(blocks, kids) && keys == Unique(BlockKeys(blocks, kids))
  {
    var lines: seq<string> := [];
    keys := [];
    for i := 0 to |blocks|
      invariant lines == BlockLines(blocks[..i], kids) && keys == BlockKeys(blocks[..i], kids)
    {
      assert blocks[..i + 1][..i] == blocks[..i];
      var blockLines, blockKeys := RenderBlock(blocks[i], kids);
      lines, keys := lines + blockLines, keys + blockKeys;
    }
    assert blocks[..|blocks|] == blocks;
    text := Trim(Join(lines, "\n\n"));
    keys := UniqueStrings(keys);
  }

  // ---------- pages ----------

  /** The least and the greatest page among the blocks that have one. */
  ghost predicate PageSpan(start: Option<int>, end: Option<int>, blocks: seq<Stored>) {
    && (start.None? <==> end.None?)
    && (start.None? <==> forall i :: 0 <= i < |blocks| ==> blocks[i].row.page.None?)
    && (start.Some? ==> exists i :: 0 <= i < |blocks| && blocks[i].row.page == start)
    && (end.Some? ==> exists i :: 0 <= i < |blocks| && blocks[i].row.page == end)
    && forall i :: 0 <= i < |blocks| && blocks[i].row.page.Some? ==>
         start.Some? && end.Some? && start.value <= blocks[i].row.page.value <= end.value
  }

  method ChunkPages(blocks: seq<Stored>) returns (start: Option<int>, end: Option<int>)
    ensures PageSpan(start, end, blocks)
  {
    start, end := None, None;
    for i := 0 to |blocks|
      invariant PageSpan(start, end, blocks[..i])
    {
      PageSpanNext(start, end, blocks, i);
      var page := blocks[i].row.page;
      if page.Some? {
        if start.None? || page.value < start.value {
          start := page;
        }
        if end.None? || page.value > end.value {
          end := page;
        }
      }
    }
    assert blocks[..|blocks|] == blocks;
  }

  lemma {:induction false} PageSpanNext(start: Option<int>, end: Option<int>, blocks: seq<Stored>, i: nat)
    requires i < |blocks| && PageSpan(start, end, blocks[..i])
    ensures var page := blocks[i].row.page;
            PageSpan(if page.Some? && (start.None? || page.value < start.value) then page else start,
                     if page.Some? && (end.None? || page.value > end.value) then page else end, blocks[..i + 1])
  {
    var page := blocks[i].row.page;
    var all := blocks[..i + 1];
    assert all[i] == blocks[i];
    assert forall k :: 0 <= k < i ==> all[k] == blocks[..i][k];
    if start.Some? {
      var k :| 0 <= k < i && blocks[..i][k].row.page == start;
      assert all[k].row.page == start;
    }
    if end.Some? {
      var k :| 0 <= k < i && blocks[..i][k].row.page == end;
      assert all[k].row.page == end;
    }
  }
}
