/** The loops that build the child chunks of a section. */
module SemanticChildren {
  import opened Wrappers
  import opened Text
  import Decimal
  import opened BlockTree
  import opened SemanticRender
  import opened SemanticPlan

  // ---------- tables ----------

  lemma NextRow(rows: seq<Stored>, kids: Kids, header: Stored, start: nat, n: nat)
    requires start + n < |rows|
    ensures TableLines(rows, kids, header, start, n + 1)
            == TableLines(rows, kids, header, start, n)
               + ["Row " + Decimal.Dec(start + n + 1) + ": " + RowText(rows[start + n], kids)]
    ensures RowKeys(rows[start..start + n + 1], kids)
            == RowKeys(rows[start..start + n], kids) + ([rows[start + n].row.key] + Keys(KidsOf(kids, rows[start + n].id)))
  {
    hide RowText, Keys, Decimal.Dec, KidsOf;
    var slice := rows[start..start + n + 1];
    assert slice[..|slice| - 1] == rows[start..start + n] && slice[|slice| - 1] == rows[start + n];
  }

  lemma NoRows(rows: seq<Stored>, kids: Kids, header: Stored, start: nat)
    requires start <= |rows|
    ensures TableLines(rows, kids, header, start, 0) == ["Header: " + RowText(header, kids)]
    ensures RowKeys(rows[start..start], kids) == []
  {
  }

  method BuildTableLines(rows: seq<Stored>, kids: Kids, headerText: string, ghost header: Stored, start: nat,
                         end: nat)
    returns (lines: seq<string>, keys: seq<string>)
    requires start <= end <= |rows| && headerText == RowText(header, kids)
    ensures lines == TableLines(rows, kids, header, start, end - start)
    ensures keys == RowKeys(rows[start..end], kids)
  {
    hide *;
    lines, keys := ["Header: " + headerText], [];
    NoRows(rows, kids, header, start);
    for rowIndex := 0 to end - start
      invariant lines == TableLines(rows, kids, header, start, rowIndex)
      invariant keys == RowKeys(rows[start..start + rowIndex], kids)
    {
      var row := rows[start + rowIndex];
      var rowText, cellKeys := RenderTableRow(row, kids);
      NextRow(rows, kids, header, start, rowIndex);
      lines := lines + ["Row " + Decimal.Dec(start + rowIndex + 1) + ": " + rowText];
      keys := keys + ([row.row.key] + cellKeys);
    }
  }

  /** `buildTableChunks`: the data rows are cut every `rowsPerChunk`, and every chunk repeats the header. */
  method BuildTableChunks(table: Stored, kids: Kids, rowsPerChunk: nat, context: Context) returns (result: seq<Chunk>)
    requires rowsPerChunk > 0
    ensures result == TableChunks(table, kids, rowsPerChunk, context)
  {
    var rows := KidsOf(kids, table.id);
    if |rows| == 0 {
      return [MakeChunk(0, TableChunk, context.path, [table.row.key], Trim(table.row.text), Some(context.parent))];
    }
    var header := rows[0];
    var headerText, headerKeys := RenderTableRow(header, kids);
    var dataRows := rows[1..];
    if |dataRows| == 0 {
      dataRows := rows[..1];
    }
    assert dataRows == DataRows(rows);
    result := BuildRowChunks(table, header, headerText, headerKeys, dataRows, kids, rowsPerChunk, context);
  }

  lemma {:induction false} RowChunksStep(table: Stored, header: Stored, rows: seq<Stored>, kids: Kids, perChunk: nat,
                                         start: nat, context: Context)
    requires perChunk > 0 && start < |rows|
    ensures start <= EndOfChunk(start, perChunk, |rows|) <= |rows|
    ensures RowChunks(table, header, rows, kids, perChunk, start, context)
            == [TableChunkOf(table, header, rows, kids, start, EndOfChunk(start, perChunk, |rows|), context)]
               + RowChunks(table, header, rows, kids, perChunk, start + perChunk, context)
  {
  }

  lemma {:induction false} RowChunksEnd(table: Stored, header: Stored, rows: seq<Stored>, kids: Kids, perChunk: nat,
                                        start: nat, context: Context)
    requires perChunk > 0 && start >= |rows|
    ensures RowChunks(table, header, rows, kids, perChunk, start, context) == []
  {
  }

  /** The chunks built so far and those still to build. */
  ghost predicate RowsBuilt(result: seq<Chunk>, table: Stored, header: Stored, rows: seq<Stored>, kids: Kids,
                            perChunk: nat,
                            start: nat, context: Context)
    requires perChunk > 0
  {
    result + RowChunks(table, header, rows, kids, perChunk, start, context)
    == RowChunks(table, header, rows, kids, perChunk, 0, context)
  }

  lemma {:induction false} RowsBuiltStart(table: Stored, header: Stored, rows: seq<Stored>, kids: Kids, perChunk: nat,
                                          context: Context)
    requires perChunk > 0
    ensures RowsBuilt([], table, header, rows, kids, perChunk, 0, context)
  {
    Regroup(RowChunks(table, header, rows, kids, perChunk, 0, context), [], []);
  }

  lemma {:induction false} RowsBuiltNext(result: seq<Chunk>, table: Stored, header: Stored, rows: seq<Stored>,
                                         kids: Kids,
                                         perChunk: nat, start: nat, context: Context)
    requires perChunk > 0 && start < |rows| && RowsBuilt(result, table, header, rows, kids, perChunk, start, context)
    ensures start <= EndOfChunk(start, perChunk, |rows|) <= |rows|
    ensures RowsBuilt(result + [TableChunkOf(table, header, rows, kids, start, EndOfChunk(start, perChunk, |rows|), context)],
                      table, header, rows, kids, perChunk, start + perChunk, context)
  {
    RowChunksStep(table, header, rows, kids, perChunk, start, context);
    hide RowChunks, TableChunkOf, EndOfChunk;
    Regroup(result, [TableChunkOf(table, header, rows, kids, start, EndOfChunk(start, perChunk, |rows|), context)],
            RowChunks(table, header, rows, kids, perChunk, start + perChunk, context));
  }

  lemma {:induction false} RowsBuiltEnd(result: seq<Chunk>, table: Stored, header: Stored, rows: seq<Stored>,
                                        kids: Kids,
                                        perChunk: nat, start: nat, context: Context)
    requires perChunk > 0 && start >= |rows| && RowsBuilt(result, table, header, rows, kids, perChunk, start, context)
    ensures result == RowChunks(table, header, rows, kids, perChunk, 0, context)
  {
    RowChunksEnd(table, header, rows, kids, perChunk, start, context);
    Regroup(result, [], []);
  }

  method BuildRowChunks(table: Stored, header: Stored, headerText: string, headerKeys: seq<string>,
                        dataRows: seq<Stored>,
                        kids: Kids, rowsPerChunk: nat, context: Context)
    returns (result: seq<Chunk>)
    requires rowsPerChunk > 0 && headerText == RowText(header, kids) && headerKeys == Keys(KidsOf(kids, header.id))
    ensures result == RowChunks(table, header, dataRows, kids, rowsPerChunk, 0, context)
  {
    hide *;
    result := [];
    var start: nat := 0;
    RowsBuiltStart(table, header, dataRows, kids, rowsPerChunk, context);
    while start < |dataRows|
      invariant RowsBuilt(result, table, header, dataRows, kids, rowsPerChunk, start, context)
      decreases |dataRows| - start
    {
      RowsBuiltNext(result, table, header, dataRows, kids, rowsPerChunk, start, context);
      var chunk := BuildRowChunk(table, header, headerText, headerKeys, dataRows, kids, rowsPerChunk, start, context);
      result := result + [chunk];
      start := start + rowsPerChunk;
    }
    RowsBuiltEnd(result, table, header, dataRows, kids, rowsPerChunk, start, context);
  }

  method BuildRowChunk(table: Stored, header: Stored, headerText: string, headerKeys: seq<string>,
                       dataRows: seq<Stored>,
                       kids: Kids, rowsPerChunk: nat, start: nat, context: Context)
    returns (chunk: Chunk)
    requires rowsPerChunk > 0 && start < |dataRows|
    requires headerText == RowText(header, kids) && headerKeys == Keys(KidsOf(kids, header.id))
    ensures chunk == TableChunkOf(table, header, dataRows, kids, start, EndOfChunk(start, rowsPerChunk, |dataRows|), context)
  {
    hide RowText, Keys, RowKeys, TableLines, Unique;
    var end := start + rowsPerChunk;
    if end > |dataRows| {
      end := |dataRows|;
    }
    var lines, rowKeys := BuildTableLines(dataRows, kids, headerText, header, start, end);
    var keys := UniqueStrings([table.row.key, header.row.key] + headerKeys + rowKeys);
    chunk := MakeChunk(0, TableChunk, context.path, keys, Join(lines, "\n"), Some(context.parent));
  }

  lemma NextMultiple(j: nat, d: nat)
    ensures (j + 1) * d == j * d + d >= d
  {
  }

  /** The cut: chunk j holds the data rows from j * perChunk on. */
  lemma {:induction false} RowChunkAt(table: Stored, header: Stored, rows: seq<Stored>, kids: Kids, perChunk: nat,
                                      start: nat,
                                      context: Context, j: nat, at: nat)
    requires perChunk > 0 && at == start + j * perChunk < |rows|
    ensures j < |RowChunks(table, header, rows, kids, perChunk, start, context)|
    ensures at <= EndOfChunk(at, perChunk, |rows|) <= |rows|
    ensures RowChunks(table, header, rows, kids, perChunk, start, context)[j]
            == TableChunkOf(table, header, rows, kids, at, EndOfChunk(at, perChunk, |rows|), context)
    decreases j
  {
    hide *;
    if j == 0 {
      RowChunksStep(table, header, rows, kids, perChunk, start, context);
    } else {
      NextMultiple(j - 1, perChunk);
      RowChunksStep(table, header, rows, kids, perChunk, start, context);
      RowChunkAt(table, header, rows, kids, perChunk, start + perChunk, context, j - 1, at);
    }
  }

  /** c chunks of d rows are the least number of chunks that hold n rows. */
  predicate LeastCover(c: nat, d: nat, n: nat) {
    n <= c * d && (c > 0 ==> (c - 1) * d < n)
  }

  /** There are as many chunks as the rows need, and no more. */
  lemma {:induction false} RowChunkCount(table: Stored, header: Stored, rows: seq<Stored>, kids: Kids,
                                         perChunk: nat, start: nat,
                                         context: Context)
    requires perChunk > 0 && start <= |rows|
    ensures LeastCover(|RowChunks(table, header, rows, kids, perChunk, start, context)|, perChunk, |rows| - start)
    decreases |rows| - start
  {
    hide RowChunks, TableChunkOf, EndOfChunk;
    if start == |rows| {
      RowChunksEnd(table, header, rows, kids, perChunk, start, context);
    } else {
      RowChunksStep(table, header, rows, kids, perChunk, start, context);
      if start + perChunk >= |rows| {
        RowChunksEnd(table, header, rows, kids, perChunk, start + perChunk, context);
      } else {
        RowChunkCount(table, header, rows, kids, perChunk, start + perChunk, context);
        CoverMore(|RowChunks(table, header, rows, kids, perChunk, start + perChunk, context)|, perChunk, |rows| - start - perChunk);
      }
    }
  }

  lemma CoverMore(c: nat, d: nat, n: nat)
    requires d > 0 && n > 0 && LeastCover(c, d, n)
    ensures LeastCover(c + 1, d, n + d)
  {
    NextMultiple(c, d);
    if c > 0 {
      NextMultiple(c - 1, d);
    }
  }

  // ---------- groups ----------

  /** Between two passes: the plan ends at `start`, and the blocks `start..index` wait for their group to be closed. */
  ghost predicate Shape(plan: seq<Piece>, blocks: seq<Stored>, kids: Kids, config: Config, start: nat, index: nat,
                        since: nat) {
    && PlanOk(plan, blocks, kids, config) && AllInBounds(plan, blocks)
    && After(plan) == start <= index <= |blocks|
    && (index < |blocks| ==> !Pulled(blocks, config, index))
    && (start == index ==> since == Since(plan) && (plan == [] || !plan[|plan| - 1].Group?))
    && (start < index ==> GroupOk(blocks, kids, config, start, index, since)
                          && StartsWell(plan, blocks, kids, config, start, since))
  }

  /** Block `index` may join the waiting blocks. */
  ghost predicate Ready(plan: seq<Piece>, blocks: seq<Stored>, kids: Kids, config: Config, start: nat, index: nat,
                        since: nat) {
    && PlanOk(plan, blocks, kids, config) && AllInBounds(plan, blocks)
    && After(plan) == start <= index < |blocks|
    && IsPlain(blocks[index]) && !Pulled(blocks, config, index)
    && StartsWell(plan, blocks, kids, config, start, since)
    && (start < index ==> GroupOk(blocks, kids, config, start, index, since) && !Overflows(blocks, kids, config, since, index))
  }

  ghost function Closed(plan: seq<Piece>, start: nat, index: nat, since: nat): seq<Piece> {
    if start < index then plan + [Group(start, index, since)] else plan
  }

  lemma {:induction false} Close(plan: seq<Piece>, blocks: seq<Stored>, kids: Kids, config: Config, start: nat,
                                 index: nat, since: nat)
    requires Shape(plan, blocks, kids, config, start, index, since)
    ensures var closed := Closed(plan, start, index, since);
            && PlanOk(closed, blocks, kids, config) && AllInBounds(closed, blocks)
            && After(closed) == index && Since(closed) == since
  {
    var closed := Closed(plan, start, index, since);
    if start < index {
      assert closed[..|plan|] == plan;
    }
  }

  lemma {:induction false} AddSingle(plan: seq<Piece>, blocks: seq<Stored>, kids: Kids, config: Config,
                                     piece: Piece, at: nat)
    requires PlanOk(plan, blocks, kids, config) && AllInBounds(plan, blocks) && After(plan) == at < |blocks|
    requires (piece == CodeAt(at) && IsCode(blocks[at])) || (piece == TableAt(at) && IsTable(blocks[at]))
    ensures Shape(plan + [piece], blocks, kids, config, at + 1, at + 1, Since(plan))
  {
    assert (plan + [piece])[..|plan|] == plan;
  }

  lemma {:induction false} SameSize(blocks: seq<Stored>, kids: Kids, config: Config, since: nat, i: nat)
    requires i < |blocks| && (!IsPlain(blocks[i]) || Pulled(blocks, config, i))
    ensures RunningSize(blocks, kids, config, since, i + 1) == RunningSize(blocks, kids, config, since, i)
  {
  }

  lemma {:induction false} GrownSize(blocks: seq<Stored>, kids: Kids, config: Config, since: nat, i: nat)
    requires since <= i < |blocks| && IsPlain(blocks[i]) && !Pulled(blocks, config, i)
    ensures RunningSize(blocks, kids, config, since, i + 1)
            == RunningSize(blocks, kids, config, since, i) + SizeOf(blocks[i], kids)
  {
  }

  lemma {:induction false} ReadyNow(plan: seq<Piece>, blocks: seq<Stored>, kids: Kids, config: Config, start: nat,
                                    index: nat, since: nat)
    requires Shape(plan, blocks, kids, config, start, index, since) && index < |blocks| && IsPlain(blocks[index])
    requires start < index ==> !Overflows(blocks, kids, config, since, index)
    ensures Ready(plan, blocks, kids, config, start, index, since) && since <= index
  {
    SinceBound(plan, blocks, kids, config);
  }

  lemma {:induction false} ReadySplit(plan: seq<Piece>, blocks: seq<Stored>, kids: Kids, config: Config, start: nat,
                                      index: nat, since: nat)
    requires Shape(plan, blocks, kids, config, start, index, since) && start < index < |blocks| && IsPlain(blocks[index])
    requires Overflows(blocks, kids, config, since, index)
    ensures Ready(Closed(plan, start, index, since), blocks, kids, config, index, index, index)
  {
    Close(plan, blocks, kids, config, start, index, since);
  }

  lemma {:induction false} PushOne(plan: seq<Piece>, blocks: seq<Stored>, kids: Kids, config: Config, start: nat,
                                   index: nat, since: nat)
    requires Ready(plan, blocks, kids, config, start, index, since)
    requires !(config.warns(blocks[index]) && index + 1 < |blocks| && IsPlain(blocks[index + 1]))
    ensures Shape(plan, blocks, kids, config, start, index + 1, since)
  {
    hide PlanOk, AllInBounds, After, Since, Overflows, IsPlain, StartsWell;
  }

  lemma {:induction false} PushTwo(plan: seq<Piece>, blocks: seq<Stored>, kids: Kids, config: Config, start: nat,
                                   index: nat, since: nat)
    requires Ready(plan, blocks, kids, config, start, index, since)
    requires config.warns(blocks[index]) && index + 1 < |blocks| && IsPlain(blocks[index + 1])
    ensures Pulled(blocks, config, index + 1)
    ensures Shape(plan, blocks, kids, config, start, index + 2, since)
  {
    hide PlanOk, AllInBounds, After, Since, Overflows, IsPlain, StartsWell;
  }

  // ---------- the loop over the blocks of a section ----------

  /** The loop state, in real variables: children built, blocks waiting, and their running size. */
  datatype Work = Work(children: seq<Chunk>, regular: seq<Stored>, regularSize: nat)

  ghost predicate WorkOk(work: Work, plan: seq<Piece>, blocks: seq<Stored>, kids: Kids, config: Config,
                         context: Context,
                         start: nat, index: nat, since: nat)
    requires config.tableRowsPerChunk > 0
  {
    && start <= index <= |blocks| && AllInBounds(plan, blocks)
    && work.children == ChunksOf(plan, blocks, kids, config, context)
    && work.regular == blocks[start..index]
    && work.regularSize == RunningSize(blocks, kids, config, since, index)
  }

  ghost predicate Building(work: Work, blocks: seq<Stored>, kids: Kids, config: Config, context: Context, index: nat)
    requires config.tableRowsPerChunk > 0
  {
    exists plan, start: nat, since: nat ::
      && Shape(plan, blocks, kids, config, start, index, since)
      && WorkOk(work, plan, blocks, kids, config, context, start, index, since)
  }

  lemma {:induction false} ChunksNext(plan: seq<Piece>, blocks: seq<Stored>, kids: Kids, config: Config,
                                      context: Context, piece: Piece)
    requires AllInBounds(plan, blocks) && InBounds(piece, blocks) && config.tableRowsPerChunk > 0
    ensures AllInBounds(plan + [piece], blocks)
    ensures ChunksOf(plan + [piece], blocks, kids, config, context)
            == ChunksOf(plan, blocks, kids, config, context) + PieceChunks(piece, blocks, kids, config, context)
  {
    assert (plan + [piece])[..|plan|] == plan;
  }

  /** The state after the waiting blocks have been closed into a chunk. */
  ghost predicate FlushedTo(children: seq<Chunk>, regularSize: nat, plan: seq<Piece>, blocks: seq<Stored>, kids: Kids,
                            config: Config, context: Context, index: nat)
    requires config.tableRowsPerChunk > 0
  {
    && PlanOk(plan, blocks, kids, config) && AllInBounds(plan, blocks)
    && After(plan) == index <= |blocks|
    && children == ChunksOf(plan, blocks, kids, config, context)
    && regularSize == RunningSize(blocks, kids, config, Since(plan), index)
  }

  function FlushedChildren(work: Work, kids: Kids, context: Context): seq<Chunk> {
    if work.regular == [] then work.children else work.children + [GroupChunkOf(work.regular, kids, context)]
  }

  lemma {:induction false} FlushKeeps(work: Work, plan: seq<Piece>, blocks: seq<Stored>, kids: Kids, config: Config,
                                      context: Context, start: nat, index: nat, since: nat)
    requires config.tableRowsPerChunk > 0
    requires Shape(plan, blocks, kids, config, start, index, since)
    requires WorkOk(work, plan, blocks, kids, config, context, start, index, since)
    ensures FlushedTo(FlushedChildren(work, kids, context), work.regularSize, Closed(plan, start, index, since),
                      blocks, kids, config, context, index)
  {
    Close(plan, blocks, kids, config, start, index, since);
    hide Shape, PlanOk, AllInBounds, After, Since, ChunksOf, GroupChunkOf, RunningSize;
    if start < index {
      ChunksNext(plan, blocks, kids, config, context, Group(start, index, since));
    }
  }

  /** `flushRegular`. */
  method FlushRegular(work: Work, kids: Kids, context: Context) returns (children: seq<Chunk>)
    ensures children == FlushedChildren(work, kids, context)
  {
    children := work.children;
    if |work.regular| == 0 {
      return;
    }
    var content, keys := RenderBlocks(work.regular, kids);
    children := children + [MakeChunk(0, GroupChunk, context.path, keys, content, Some(context.parent))];
  }

  lemma {:induction false} SingleKeeps(children: seq<Chunk>, regularSize: nat, plan: seq<Piece>,
                                       blocks: seq<Stored>, kids: Kids,
                                       config: Config, context: Context, index: nat, piece: Piece, more: seq<Chunk>)
    requires config.tableRowsPerChunk > 0 && index < |blocks|
    requires FlushedTo(children, regularSize, plan, blocks, kids, config, context, index)
    requires (piece == CodeAt(index) && IsCode(blocks[index])) || (piece == TableAt(index) && IsTable(blocks[index]))
    requires more == PieceChunks(piece, blocks, kids, config, context)
    ensures Building(Work(children + more, [], regularSize), blocks, kids, config, context, index + 1)
  {
    AddSingle(plan, blocks, kids, config, piece, index);
    ChunksNext(plan, blocks, kids, config, context, piece);
    SameSize(blocks, kids, config, Since(plan), index);
    var work := Work(children + more, [], regularSize);
    hide Shape, PlanOk, ChunksOf, PieceChunks, RunningSize, IsCode, IsTable;
    assert WorkOk(work, plan + [piece], blocks, kids, config, context, index + 1, index + 1, Since(plan));
    assert Shape(plan + [piece], blocks, kids, config, index + 1, index + 1, Since(plan));
  }

  /** Block `index` may join the waiting blocks of this state. */
  ghost predicate ReadyWork(work: Work, blocks: seq<Stored>, kids: Kids, config: Config, context: Context, index: nat)
    requires config.tableRowsPerChunk > 0
  {
    exists plan, start: nat, since: nat ::
      && Ready(plan, blocks, kids, config, start, index, since) && since <= index
      && WorkOk(work, plan, blocks, kids, config, context, start, index, since)
  }

  predicate Split(work: Work, size: nat, config: Config) {
    |work.regular| > 0 && work.regularSize + size > config.maxChildChars
  }

  lemma {:induction false} JoinKeeps(work: Work, blocks: seq<Stored>, kids: Kids, config: Config, context: Context,
                                     index: nat)
    requires config.tableRowsPerChunk > 0 && index < |blocks| && IsPlain(blocks[index])
    requires Building(work, blocks, kids, config, context, index) && !Split(work, SizeOf(blocks[index], kids), config)
    ensures ReadyWork(work, blocks, kids, config, context, index)
  {
    hide PlanOk, AllInBounds, After, Since, ChunksOf, IsPlain, SizeOf, RunningSize;
    var plan, start: nat, since: nat :|
      && Shape(plan, blocks, kids, config, start, index, since)
      && WorkOk(work, plan, blocks, kids, config, context, start, index, since);
    assert start < index ==> |work.regular| > 0;
    ReadyNow(plan, blocks, kids, config, start, index, since);
  }

  lemma {:induction false} SplitKeeps(work: Work, blocks: seq<Stored>, kids: Kids, config: Config, context: Context,
                                      index: nat)
    requires config.tableRowsPerChunk > 0 && index < |blocks| && IsPlain(blocks[index])
    requires Building(work, blocks, kids, config, context, index) && Split(work, SizeOf(blocks[index], kids), config)
    ensures ReadyWork(Work(FlushedChildren(work, kids, context), [], 0), blocks, kids, config, context, index)
  {
    hide PlanOk, AllInBounds, After, Since, ChunksOf, IsPlain, SizeOf, RunningSize, FlushedChildren;
    var plan, start: nat, since: nat :|
      && Shape(plan, blocks, kids, config, start, index, since)
      && WorkOk(work, plan, blocks, kids, config, context, start, index, since);
    ReadySplit(plan, blocks, kids, config, start, index, since);
    FlushKeeps(work, plan, blocks, kids, config, context, start, index, since);
    SizeStarts(blocks, kids, config, index);
    assert WorkOk(Work(FlushedChildren(work, kids, context), [], 0), Closed(plan, start, index, since), blocks, kids, config,
                  context, index, index, index);
  }

  lemma {:induction false} SizeStarts(blocks: seq<Stored>, kids: Kids, config: Config, i: nat)
    requires i <= |blocks|
    ensures RunningSize(blocks, kids, config, i, i) == 0
  {
  }

  function Pushed(work: Work, more: seq<Stored>, size: nat): Work {
    Work(work.children, work.regular + more, work.regularSize + size)
  }

  predicate PullsNext(blocks: seq<Stored>, config: Config, index: nat)
    requires index < |blocks|
  {
    config.warns(blocks[index]) && index + 1 < |blocks| && IsPlain(blocks[index + 1])
  }

  lemma ReadyBounds(plan: seq<Piece>, blocks: seq<Stored>, kids: Kids, config: Config, start: nat, index: nat, since: nat)
    requires Ready(plan, blocks, kids, config, start, index, since)
    ensures start <= index < |blocks| && AllInBounds(plan, blocks)
  {
    hide PlanOk, AllInBounds, StartsWell, GroupOk, Overflows;
  }

  lemma {:induction false} OneSize(plan: seq<Piece>, blocks: seq<Stored>, kids: Kids, config: Config, start: nat, index: nat,
                                   since: nat)
    requires Ready(plan, blocks, kids, config, start, index, since) && since <= index
    ensures RunningSize(blocks, kids, config, since, index + 1)
            == RunningSize(blocks, kids, config, since, index) + SizeOf(blocks[index], kids)
  {
    hide PlanOk, AllInBounds, After, Since, IsPlain, SizeOf, RunningSize, GroupOk, StartsWell, Overflows;
    GrownSize(blocks, kids, config, since, index);
  }

  lemma {:induction false} PushOneWork(work: Work, plan: seq<Piece>, blocks: seq<Stored>, kids: Kids, config: Config,
                                       context: Context, start: nat, index: nat, since: nat)
    requires config.tableRowsPerChunk > 0 && start <= index < |blocks| && AllInBounds(plan, blocks)
    requires WorkOk(work, plan, blocks, kids, config, context, start, index, since)
    requires RunningSize(blocks, kids, config, since, index + 1)
             == RunningSize(blocks, kids, config, since, index) + SizeOf(blocks[index], kids)
    ensures WorkOk(Pushed(work, [blocks[index]], SizeOf(blocks[index], kids)), plan, blocks, kids, config, context, start,
                   index + 1, since)
  {
    hide AllInBounds, ChunksOf, SizeOf, RunningSize;
    assert blocks[start..index + 1] == blocks[start..index] + [blocks[index]];
  }

  lemma {:induction false} PushOneKeeps(work: Work, blocks: seq<Stored>, kids: Kids, config: Config,
                                        context: Context, index: nat)
    requires config.tableRowsPerChunk > 0 && index < |blocks| && !PullsNext(blocks, config, index)
    requires ReadyWork(work, blocks, kids, config, context, index)
    ensures Building(Pushed(work, [blocks[index]], SizeOf(blocks[index], kids)), blocks, kids, config, context, index + 1)
  {
    var plan, start: nat, since: nat :|
      && Ready(plan, blocks, kids, config, start, index, since) && since <= index
      && WorkOk(work, plan, blocks, kids, config, context, start, index, since);
    hide Ready, WorkOk, Shape, SizeOf, RunningSize, Pushed, AllInBounds, IsPlain;
    ReadyBounds(plan, blocks, kids, config, start, index, since);
    PushOne(plan, blocks, kids, config, start, index, since);
    OneSize(plan, blocks, kids, config, start, index, since);
    PushOneWork(work, plan, blocks, kids, config, context, start, index, since);
  }

  /** A pulled-in block adds nothing to the running size. */
  lemma {:induction false} TwoSizes(plan: seq<Piece>, blocks: seq<Stored>, kids: Kids, config: Config, start: nat, index: nat,
                                    since: nat)
    requires Ready(plan, blocks, kids, config, start, index, since) && since <= index
    requires index + 1 < |blocks| && PullsNext(blocks, config, index)
    ensures RunningSize(blocks, kids, config, since, index + 2)
            == RunningSize(blocks, kids, config, since, index) + SizeOf(blocks[index], kids)
  {
    hide PlanOk, AllInBounds, After, Since, IsPlain, SizeOf, RunningSize, GroupOk, StartsWell, Overflows;
    GrownSize(blocks, kids, config, since, index);
    SameSize(blocks, kids, config, since, index + 1);
  }

  lemma {:induction false} PushTwoWork(work: Work, plan: seq<Piece>, blocks: seq<Stored>, kids: Kids, config: Config,
                                       context: Context, start: nat, index: nat, since: nat)
    requires config.tableRowsPerChunk > 0 && start <= index && index + 1 < |blocks| && AllInBounds(plan, blocks)
    requires WorkOk(work, plan, blocks, kids, config, context, start, index, since)
    requires RunningSize(blocks, kids, config, since, index + 2)
             == RunningSize(blocks, kids, config, since, index) + SizeOf(blocks[index], kids)
    ensures WorkOk(Pushed(work, [blocks[index]] + [blocks[index + 1]], SizeOf(blocks[index], kids)), plan, blocks, kids, config,
                   context, start, index + 2, since)
  {
    hide AllInBounds, ChunksOf, SizeOf, RunningSize;
    assert blocks[start..index + 2] == blocks[start..index] + ([blocks[index]] + [blocks[index + 1]]);
  }

  lemma {:induction false} PushTwoKeeps(work: Work, blocks: seq<Stored>, kids: Kids, config: Config,
                                        context: Context, index: nat)
    requires config.tableRowsPerChunk > 0 && index + 1 < |blocks| && PullsNext(blocks, config, index)
    requires ReadyWork(work, blocks, kids, config, context, index)
    ensures Building(Pushed(work, [blocks[index]] + [blocks[index + 1]], SizeOf(blocks[index], kids)),
                     blocks, kids, config, context, index + 2)
  {
    var plan, start: nat, since: nat :|
      && Ready(plan, blocks, kids, config, start, index, since) && since <= index
      && WorkOk(work, plan, blocks, kids, config, context, start, index, since);
    hide Ready, WorkOk, Shape, SizeOf, RunningSize, Pushed, AllInBounds, IsPlain;
    ReadyBounds(plan, blocks, kids, config, start, index, since);
    PushTwo(plan, blocks, kids, config, start, index, since);
    TwoSizes(plan, blocks, kids, config, start, index, since);
    PushTwoWork(work, plan, blocks, kids, config, context, start, index, since);
  }

  /** A plain block: it closes the waiting group if it would outgrow it, and a warning takes the next plain block along. */
  method AddPlain(work: Work, blocks: seq<Stored>, kids: Kids, config: Config, context: Context, index: nat)
    returns (work': Work, next: nat)
    requires config.tableRowsPerChunk > 0 && index < |blocks| && IsPlain(blocks[index])
    requires Building(work, blocks, kids, config, context, index)
    ensures index < next <= |blocks| && Building(work', blocks, kids, config, context, next)
  {
    var text, _ := RenderBlocks([blocks[index]], kids);
    var size := |text|;
    assert size == SizeOf(blocks[index], kids);
    assert PullsNext(blocks, config, index) ==> index + 1 < |blocks|;
    hide *;
    work' := work;
    if Split(work, size, config) {
      SplitKeeps(work, blocks, kids, config, context, index);
      var children := FlushRegular(work, kids, context);
      work' := Work(children, [], 0);
    } else {
      JoinKeeps(work, blocks, kids, config, context, index);
    }
    if PullsNext(blocks, config, index) {
      PushTwoKeeps(work', blocks, kids, config, context, index);
      work', next := Pushed(work', [blocks[index]] + [blocks[index + 1]], size), index + 2;
    } else {
      PushOneKeeps(work', blocks, kids, config, context, index);
      work', next := Pushed(work', [blocks[index]], size), index + 1;
    }
  }

  lemma {:induction false} AddSingleKeeps(work: Work, blocks: seq<Stored>, kids: Kids, config: Config,
                                          context: Context,
                                          index: nat, piece: Piece, more: seq<Chunk>)
    requires config.tableRowsPerChunk > 0 && index < |blocks|
    requires Building(work, blocks, kids, config, context, index)
    requires (piece == CodeAt(index) && IsCode(blocks[index])) || (piece == TableAt(index) && IsTable(blocks[index]))
    requires more == PieceChunks(piece, blocks, kids, config, context)
    ensures Building(Work(FlushedChildren(work, kids, context) + more, [], work.regularSize), blocks, kids, config, context, index + 1)
  {
    hide PlanOk, AllInBounds, After, Since, ChunksOf, IsPlain, SizeOf, RunningSize, FlushedChildren, PieceChunks, IsCode, IsTable;
    var plan, start: nat, since: nat :|
      && Shape(plan, blocks, kids, config, start, index, since)
      && WorkOk(work, plan, blocks, kids, config, context, start, index, since);
    FlushKeeps(work, plan, blocks, kids, config, context, start, index, since);
    hide Shape, WorkOk, FlushedTo;
    SingleKeeps(FlushedChildren(work, kids, context), work.regularSize, Closed(plan, start, index, since),
                blocks, kids, config, context, index, piece, more);
  }

  /** A table or a code block: it closes the waiting group and gives chunks of its own; the running size goes on. */
  method AddSeparate(work: Work, blocks: seq<Stored>, kids: Kids, config: Config, context: Context, index: nat)
    returns (work': Work)
    requires config.tableRowsPerChunk > 0 && index < |blocks| && !IsPlain(blocks[index])
    requires Building(work, blocks, kids, config, context, index)
    ensures Building(work', blocks, kids, config, context, index + 1)
  {
    var children := FlushRegular(work, kids, context);
    var more;
    if IsTable(blocks[index]) {
      more := BuildTableChunks(blocks[index], kids, config.tableRowsPerChunk, context);
      AddSingleKeeps(work, blocks, kids, config, context, index, TableAt(index), more);
    } else {
      more := [CodeChunkOf(blocks, index, config.contextBlocks, context)];
      AddSingleKeeps(work, blocks, kids, config, context, index, CodeAt(index), more);
    }
    hide *;
    work' := Work(children + more, [], work.regularSize);
  }

  lemma {:induction false} BuildingStart(blocks: seq<Stored>, kids: Kids, config: Config, context: Context)
    requires config.tableRowsPerChunk > 0
    ensures Building(Work([], [], 0), blocks, kids, config, context, 0)
  {
    assert Shape([], blocks, kids, config, 0, 0, 0);
    assert WorkOk(Work([], [], 0), [], blocks, kids, config, context, 0, 0, 0);
  }

  /** The children of a section, and the plan they come from. */
  ghost predicate ChildrenOf(children: seq<Chunk>, blocks: seq<Stored>, kids: Kids, config: Config,
                             context: Context, plan: seq<Piece>)
    requires config.tableRowsPerChunk > 0
  {
    && PlanOk(plan, blocks, kids, config) && AllInBounds(plan, blocks) && After(plan) == |blocks|
    && children == ChunksOf(plan, blocks, kids, config, context)
  }

  lemma {:induction false} BuildingEnd(work: Work, blocks: seq<Stored>, kids: Kids, config: Config, context: Context)
    returns (plan: seq<Piece>)
    requires config.tableRowsPerChunk > 0 && Building(work, blocks, kids, config, context, |blocks|)
    ensures ChildrenOf(FlushedChildren(work, kids, context), blocks, kids, config, context, plan)
  {
    hide PlanOk, AllInBounds, After, Since, ChunksOf, RunningSize, FlushedChildren;
    var before, start: nat, since: nat :|
      && Shape(before, blocks, kids, config, start, |blocks|, since)
      && WorkOk(work, before, blocks, kids, config, context, start, |blocks|, since);
    FlushKeeps(work, before, blocks, kids, config, context, start, |blocks|, since);
    plan := Closed(before, start, |blocks|, since);
  }

  /** `buildSectionChildren`. */
  method BuildSectionChildren(blocks: seq<Stored>, kids: Kids, config: Config, context: Context)
    returns (children: seq<Chunk>, ghost plan: seq<Piece>)
    requires config.tableRowsPerChunk > 0
    ensures ChildrenOf(children, blocks, kids, config, context, plan)
  {
    BuildingStart(blocks, kids, config, context);
    hide *;
    var work := Work([], [], 0);
    var index: nat := 0;
    while index < |blocks|
      invariant index <= |blocks| && Building(work, blocks, kids, config, context, index)
      decreases |blocks| - index
    {
      if IsPlain(blocks[index]) {
        work, index := AddPlain(work, blocks, kids, config, context, index);
      } else {
        work := AddSeparate(work, blocks, kids, config, context, index);
        index := index + 1;
      }
    }
    plan := BuildingEnd(work, blocks, kids, config, context);
    children := FlushRegular(work, kids, context);
  }
}
