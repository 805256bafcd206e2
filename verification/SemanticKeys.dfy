/** The source blocks of the children of a section are those of the section. */
module SemanticKeys {
  import opened Wrappers
  import opened Text
  import opened BlockTree
  import opened SemanticRender
  import opened SemanticPlan
  import opened SemanticChildren

  /** Some chunk names v among its source blocks. */
  ghost predicate InSome(chunks: seq<Chunk>, v: string) {
    exists i :: 0 <= i < |chunks| && v in chunks[i].keys
  }

  lemma {:induction false} InSomeConcat(a: seq<Chunk>, b: seq<Chunk>, v: string)
    ensures InSome(a + b, v) <==> InSome(a, v) || InSome(b, v)
  {
    if InSome(a, v) {
      var i :| 0 <= i < |a| && v in a[i].keys;
      assert v in (a + b)[i].keys;
    }
    if InSome(b, v) {
      var i :| 0 <= i < |b| && v in b[i].keys;
      assert v in (a + b)[|a| + i].keys;
    }
    if InSome(a + b, v) {
      var i :| 0 <= i < |a + b| && v in (a + b)[i].keys;
      assert i < |a| ==> v in a[i].keys;
      assert i >= |a| ==> v in b[i - |a|].keys;
    }
  }

  lemma {:induction false} InSomeOne(chunk: Chunk, v: string)
    ensures InSome([chunk], v) <==> v in chunk.keys
  {
    assert [chunk][0] == chunk;
  }

  // ---------- membership in the lists of keys ----------

  ghost predicate RowHas(row: Stored, kids: Kids, v: string) {
    v == row.row.key || v in Keys(KidsOf(kids, row.id))
  }

  lemma {:induction false} InRowKeys(rows: seq<Stored>, kids: Kids, v: string)
    ensures v in RowKeys(rows, kids) <==> exists i :: 0 <= i < |rows| && RowHas(rows[i], kids, v)
  {
    if rows != [] {
      var n := |rows| - 1;
      InRowKeys(rows[..n], kids, v);
      if v in RowKeys(rows[..n], kids) {
        var i :| 0 <= i < n && RowHas(rows[..n][i], kids, v);
        assert RowHas(rows[i], kids, v);
      } else if v in RowKeys(rows, kids) {
        assert RowHas(rows[n], kids, v);
      }
      if i :| 0 <= i < |rows| && RowHas(rows[i], kids, v) {
        assert i < n ==> RowHas(rows[..n][i], kids, v);
      }
    }
  }

  lemma {:induction false} InKeys(blocks: seq<Stored>, v: string)
    ensures v in Keys(blocks) <==> exists i :: 0 <= i < |blocks| && blocks[i].row.key == v
  {
    if blocks != [] {
      var n := |blocks| - 1;
      InKeys(blocks[..n], v);
      if v in Keys(blocks[..n]) {
        var i :| 0 <= i < n && blocks[..n][i].row.key == v;
        assert blocks[i].row.key == v;
      }
      if i :| 0 <= i < |blocks| && blocks[i].row.key == v {
        assert i < n ==> blocks[..n][i].row.key == v;
      }
    }
  }

  lemma {:induction false} InBlockKeys(blocks: seq<Stored>, kids: Kids, v: string)
    ensures v in BlockKeys(blocks, kids) <==> exists i :: 0 <= i < |blocks| && v in KeysOf(blocks[i], kids)
  {
    if blocks != [] {
      var n := |blocks| - 1;
      InBlockKeys(blocks[..n], kids, v);
      if v in BlockKeys(blocks[..n], kids) {
        var i :| 0 <= i < n && v in KeysOf(blocks[..n][i], kids);
        assert v in KeysOf(blocks[i], kids);
      }
      if i :| 0 <= i < |blocks| && v in KeysOf(blocks[i], kids) {
        assert i < n ==> v in KeysOf(blocks[..n][i], kids);
      }
    }
  }

  // ---------- tables ----------

  lemma {:induction false} TableChunkKeys(table: Stored, header: Stored, rows: seq<Stored>, kids: Kids, start: nat,
                                          end: nat,
                                          context: Context, v: string)
    requires start <= end <= |rows| && v != ""
    ensures v in TableChunkOf(table, header, rows, kids, start, end, context).keys <==>
            || v == table.row.key || RowHas(header, kids, v)
            || exists i :: start <= i < end && RowHas(rows[i], kids, v)
  {
    var slice := rows[start..end];
    UniqueFacts(TableKeys(table, header, slice, kids));
    InRowKeys(slice, kids, v);
    if i :| start <= i < end && RowHas(rows[i], kids, v) {
      assert RowHas(slice[i - start], kids, v);
    }
    if v in RowKeys(slice, kids) {
      var i :| 0 <= i < |slice| && RowHas(slice[i], kids, v);
      assert RowHas(rows[start + i], kids, v);
    }
  }

  /** The chunks of the data rows from `start` on name the table, its header and those rows. */
  lemma {:induction false} RowChunksKeys(table: Stored, header: Stored, rows: seq<Stored>, kids: Kids,
                                         perChunk: nat, start: nat,
                                         context: Context, v: string)
    requires perChunk > 0 && v != ""
    ensures InSome(RowChunks(table, header, rows, kids, perChunk, start, context), v) <==>
            start < |rows| && (|| v == table.row.key || RowHas(header, kids, v)
                               || exists i :: start <= i < |rows| && RowHas(rows[i], kids, v))
    decreases |rows| - start
  {
    hide RowChunks, TableChunkOf, RowHas;
    if start >= |rows| {
      RowChunksEnd(table, header, rows, kids, perChunk, start, context);
    } else {
      var end := EndOfChunk(start, perChunk, |rows|);
      RowChunksStep(table, header, rows, kids, perChunk, start, context);
      var first := TableChunkOf(table, header, rows, kids, start, end, context);
      InSomeConcat([first], RowChunks(table, header, rows, kids, perChunk, start + perChunk, context), v);
      InSomeOne(first, v);
      TableChunkKeys(table, header, rows, kids, start, end, context, v);
      RowChunksKeys(table, header, rows, kids, perChunk, start + perChunk, context, v);
    }
  }

  lemma {:induction false} TableChunksKeys(table: Stored, kids: Kids, perChunk: nat, context: Context, v: string)
    requires perChunk > 0 && v != "" && IsTable(table)
    ensures InSome(TableChunks(table, kids, perChunk, context), v) <==> v in KeysOf(table, kids)
  {
    var rows := KidsOf(kids, table.id);
    InRowKeys(rows, kids, v);
    if rows == [] {
      var only := MakeChunk(0, TableChunk, context.path, [table.row.key], Trim(table.row.text), Some(context.parent));
      InSomeOne(only, v);
    } else {
      RowChunksKeys(table, rows[0], DataRows(rows), kids, perChunk, 0, context, v);
      hide RowHas, RowChunks;
      DataRowsCover(rows, kids, v);
    }
  }

  lemma {:induction false} DataRowsCover(rows: seq<Stored>, kids: Kids, v: string)
    requires rows != []
    ensures (exists i :: 0 <= i < |rows| && RowHas(rows[i], kids, v)) <==>
            RowHas(rows[0], kids, v) || exists i :: 0 <= i < |DataRows(rows)| && RowHas(DataRows(rows)[i], kids, v)
  {
    hide RowHas;
    var data := DataRows(rows);
    if i :| 0 <= i < |rows| && RowHas(rows[i], kids, v) {
      assert i > 0 ==> RowHas(data[i - 1], kids, v);
    }
    if i :| 0 <= i < |data| && RowHas(data[i], kids, v) {
      assert |rows| > 1 ==> RowHas(rows[i + 1], kids, v);
    }
  }

  // ---------- a section ----------

  /** Some block in `lo..hi` has the key v, itself or in its rows. */
  ghost predicate Named(blocks: seq<Stored>, kids: Kids, lo: nat, hi: nat, v: string)
    requires hi <= |blocks|
  {
    exists i :: lo <= i < hi && v in KeysOf(blocks[i], kids)
  }

  lemma {:induction false} GroupKeys(blocks: seq<Stored>, kids: Kids, context: Context, v: string)
    requires v != ""
    ensures v in GroupChunkOf(blocks, kids, context).keys <==> Named(blocks, kids, 0, |blocks|, v)
  {
    UniqueFacts(BlockKeys(blocks, kids));
    InBlockKeys(blocks, kids, v);
  }

  lemma {:induction false} SliceIn(blocks: seq<Stored>, from: nat, to: nat, v: string)
    requires v in Keys(Slice(blocks, from, to))
    ensures exists i :: 0 <= i < |blocks| && blocks[i].row.key == v
  {
    var slice := Slice(blocks, from, to);
    InKeys(slice, v);
    var i :| 0 <= i < |slice| && slice[i].row.key == v;
    assert blocks[from + i].row.key == v;
  }

  lemma {:induction false} KeysConcat(a: seq<Stored>, b: seq<Stored>)
    ensures Keys(a + b) == Keys(a) + Keys(b)
  {
    if b == [] {
      assert a + b == a;
    } else {
      assert (a + b)[..|a + b| - 1] == a + b[..|b| - 1];
      KeysConcat(a, b[..|b| - 1]);
    }
  }

  lemma {:induction false} ContextIn(blocks: seq<Stored>, at: nat, limit: nat, v: string)
    requires at < |blocks| && v in Keys(Before(blocks, at, limit) + Behind(blocks, at, limit))
    ensures exists i :: 0 <= i < |blocks| && blocks[i].row.key == v
  {
    KeysConcat(Before(blocks, at, limit), Behind(blocks, at, limit));
    hide Keys, Slice;
    if v in Keys(Before(blocks, at, limit)) {
      SliceIn(blocks, if at < limit then 0 else at - limit, at, v);
    } else {
      SliceIn(blocks, at + 1, at + limit + 1, v);
    }
  }

  /** A code chunk names its own block and blocks of the same section. */
  lemma {:induction false} CodeKeys(blocks: seq<Stored>, at: nat, limit: nat, context: Context, v: string)
    requires at < |blocks| && v != ""
    ensures v == blocks[at].row.key ==> v in CodeChunkOf(blocks, at, limit, context).keys
    ensures v in CodeChunkOf(blocks, at, limit, context).keys ==> exists i :: 0 <= i < |blocks| && blocks[i].row.key == v
  {
    var around := Keys(Before(blocks, at, limit) + Behind(blocks, at, limit));
    UniqueFacts([blocks[at].row.key] + around);
    hide Before, Behind, Keys, Unique, CommandText;
    if v in around {
      ContextIn(blocks, at, limit, v);
    }
  }

  lemma {:induction false} NamedParts(blocks: seq<Stored>, kids: Kids, lo: nat, hi: nat, v: string)
    requires lo <= hi <= |blocks|
    ensures Named(blocks, kids, 0, hi, v) ==> Named(blocks, kids, 0, lo, v) || Named(blocks, kids, lo, hi, v)
    ensures Named(blocks, kids, lo, hi, v) ==> Named(blocks, kids, 0, |blocks|, v)
  {
    hide KeysOf;
  }

  function FirstOf(piece: Piece): nat {
    match piece case Group(from, _, _) => from case CodeAt(at) => at case TableAt(at) => at
  }

  function EndOf(piece: Piece): nat {
    match piece case Group(_, to, _) => to case CodeAt(at) => at + 1 case TableAt(at) => at + 1
  }

  lemma {:induction false} NamedSlice(blocks: seq<Stored>, kids: Kids, from: nat, to: nat, v: string)
    requires from <= to <= |blocks|
    ensures Named(blocks[from..to], kids, 0, to - from, v) <==> Named(blocks, kids, from, to, v)
  {
    hide KeysOf;
    var slice := blocks[from..to];
    if i :| 0 <= i < to - from && v in KeysOf(slice[i], kids) {
      assert v in KeysOf(blocks[from + i], kids);
    }
    if i :| from <= i < to && v in KeysOf(blocks[i], kids) {
      assert v in KeysOf(slice[i - from], kids);
    }
  }

  lemma {:induction false} GroupPieceKeys(piece: Piece, blocks: seq<Stored>, kids: Kids, context: Context, v: string)
    requires InBounds(piece, blocks) && piece.Group? && v != ""
    ensures InSome([GroupChunkOf(blocks[piece.from..piece.to], kids, context)], v) <==>
            Named(blocks, kids, piece.from, piece.to, v)
  {
    hide KeysOf, GroupChunkOf, InSome;
    InSomeOne(GroupChunkOf(blocks[piece.from..piece.to], kids, context), v);
    GroupKeys(blocks[piece.from..piece.to], kids, context, v);
    NamedSlice(blocks, kids, piece.from, piece.to, v);
  }

  lemma {:induction false} CodePieceKeys(at: nat, blocks: seq<Stored>, kids: Kids, limit: nat, context: Context,
                                         v: string)
    requires at < |blocks| && IsCode(blocks[at]) && v != ""
    ensures InSome([CodeChunkOf(blocks, at, limit, context)], v) ==> Named(blocks, kids, 0, |blocks|, v)
    ensures Named(blocks, kids, at, at + 1, v) ==> InSome([CodeChunkOf(blocks, at, limit, context)], v)
  {
    InSomeOne(CodeChunkOf(blocks, at, limit, context), v);
    CodeKeys(blocks, at, limit, context, v);
    hide CodeChunkOf, InSome;
    if InSome([CodeChunkOf(blocks, at, limit, context)], v) {
      var i :| 0 <= i < |blocks| && blocks[i].row.key == v;
      assert v in KeysOf(blocks[i], kids);
    }
  }

  lemma {:induction false} TablePieceKeys(at: nat, blocks: seq<Stored>, kids: Kids, perChunk: nat, context: Context,
                                          v: string)
    requires at < |blocks| && IsTable(blocks[at]) && v != "" && perChunk > 0
    ensures InSome(TableChunks(blocks[at], kids, perChunk, context), v) <==> Named(blocks, kids, at, at + 1, v)
  {
    TableChunksKeys(blocks[at], kids, perChunk, context, v);
    hide TableChunks, InSome, KeysOf;
  }

  /** A piece names only blocks of the section, and all those it is made of. */
  lemma {:induction false} PieceKeys(piece: Piece, blocks: seq<Stored>, kids: Kids, config: Config,
                                     context: Context, v: string)
    requires InBounds(piece, blocks) && config.tableRowsPerChunk > 0 && v != ""
    requires piece.TableAt? ==> IsTable(blocks[piece.at])
    requires piece.CodeAt? ==> IsCode(blocks[piece.at])
    ensures InSome(PieceChunks(piece, blocks, kids, config, context), v) ==> Named(blocks, kids, 0, |blocks|, v)
    ensures Named(blocks, kids, FirstOf(piece), EndOf(piece), v) ==> InSome(PieceChunks(piece, blocks, kids, config, context), v)
  {
    NamedParts(blocks, kids, FirstOf(piece), EndOf(piece), v);
    hide Named, InSome, GroupChunkOf, CodeChunkOf, TableChunks, IsTable, IsCode;
    match piece
    case Group(from, to, _) => GroupPieceKeys(piece, blocks, kids, context, v);
    case CodeAt(at) => CodePieceKeys(at, blocks, kids, config.contextBlocks, context, v);
    case TableAt(at) => TablePieceKeys(at, blocks, kids, config.tableRowsPerChunk, context, v);
  }

  lemma {:induction false} PlanKeys(plan: seq<Piece>, blocks: seq<Stored>, kids: Kids, config: Config,
                                    context: Context, v: string)
    requires PlanOk(plan, blocks, kids, config) && config.tableRowsPerChunk > 0 && v != ""
    ensures AllInBounds(plan, blocks) && After(plan) <= |blocks|
    ensures InSome(ChunksOf(plan, blocks, kids, config, context), v) ==> Named(blocks, kids, 0, |blocks|, v)
    ensures Named(blocks, kids, 0, After(plan), v) ==> InSome(ChunksOf(plan, blocks, kids, config, context), v)
  {
    PlanInBounds(plan, blocks, kids, config);
    if plan != [] {
      var before := plan[..|plan| - 1];
      var last := plan[|plan| - 1];
      PlanKeys(before, blocks, kids, config, context, v);
      PieceKeys(last, blocks, kids, config, context, v);
      InSomeConcat(ChunksOf(before, blocks, kids, config, context), PieceChunks(last, blocks, kids, config, context), v);
      NamedParts(blocks, kids, After(before), After(plan), v);
      hide InSome, Named, PieceChunks, IsTable, IsCode, GroupOk, StartsWell;
    }
  }

  /** For a whole section: the children together name exactly the blocks the section chunk names. */
  lemma {:induction false} ChildrenNameTheSection(children: seq<Chunk>, blocks: seq<Stored>, kids: Kids,
                                                  config: Config,
                                                  context: Context, plan: seq<Piece>, v: string)
    requires config.tableRowsPerChunk > 0 && v != "" && ChildrenOf(children, blocks, kids, config, context, plan)
    ensures InSome(children, v) <==> v in Unique(BlockKeys(blocks, kids))
  {
    PlanKeys(plan, blocks, kids, config, context, v);
    UniqueFacts(BlockKeys(blocks, kids));
    InBlockKeys(blocks, kids, v);
  }
}
