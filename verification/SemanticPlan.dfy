/** How the blocks of a section are cut into child chunks. */
module SemanticPlan {
  import opened Wrappers
  import Decimal
  import opened Text
  import opened BlockTree
  import opened SemanticRender

  /**
   * What the children are made of: a run of plain blocks, one code block, or one table. `since` is where the running size
   * of a group was last set to zero.
   */
  datatype Piece = Group(from: nat, to: nat, since: nat) | CodeAt(at: nat) | TableAt(at: nat)

  /** The configuration: the size a group should not outgrow, and which blocks warn of a risk. */
  datatype Config = Config(maxChildChars: nat, tableRowsPerChunk: nat, contextBlocks: nat, warns: Stored -> bool)

  function SizeOf(block: Stored, kids: Kids): nat {
    |TextOf([block], kids)|
  }

  /** A plain block that the warning before it has pulled in. */
  predicate Pulled(blocks: seq<Stored>, config: Config, i: nat)
    requires i < |blocks|
  {
    && i > 0 && IsPlain(blocks[i]) && IsPlain(blocks[i - 1])
    && config.warns(blocks[i - 1]) && !Pulled(blocks, config, i - 1)
  }

  /** The running size: the plain blocks from `since` on that were not pulled in. */
  function RunningSize(blocks: seq<Stored>, kids: Kids, config: Config, since: nat, i: nat): nat
    requires i <= |blocks|
  {
    if i <= since then 0
    else RunningSize(blocks, kids, config, since, i - 1)
         + if IsPlain(blocks[i - 1]) && !Pulled(blocks, config, i - 1) then SizeOf(blocks[i - 1], kids) else 0
  }

  predicate Overflows(blocks: seq<Stored>, kids: Kids, config: Config, since: nat, i: nat)
    requires i < |blocks|
  {
    RunningSize(blocks, kids, config, since, i) + SizeOf(blocks[i], kids) > config.maxChildChars
  }

  function Since(plan: seq<Piece>): nat {
    if plan == [] then 0
    else match plan[|plan| - 1]
         case Group(_, _, since) => since
         case CodeAt(_) => Since(plan[..|plan| - 1])
         case TableAt(_) => Since(plan[..|plan| - 1])
  }

  function After(plan: seq<Piece>): nat {
    if plan == [] then 0
    else match plan[|plan| - 1]
         case Group(_, to, _) => to
         case CodeAt(at) => at + 1
         case TableAt(at) => at + 1
  }

  /** A group of plain blocks that nothing splits: no block in it but the first and those pulled in would overflow. */
  ghost predicate GroupOk(blocks: seq<Stored>, kids: Kids, config: Config, from: nat, to: nat, since: nat) {
    && from < to <= |blocks|
    && (forall k :: from <= k < to ==> IsPlain(blocks[k]))
    && !Pulled(blocks, config, from)
    && forall k :: from < k < to ==> Pulled(blocks, config, k) || !Overflows(blocks, kids, config, since, k)
  }

  /** A group goes on from the group before it only because its first block overflowed, and then the size restarts. */
  ghost predicate StartsWell(before: seq<Piece>, blocks: seq<Stored>, kids: Kids, config: Config, from: nat,
                             since: nat)
    requires from < |blocks|
  {
    if before != [] && before[|before| - 1].Group? then
      since == from && Overflows(blocks, kids, config, Since(before), from)
    else since == Since(before)
  }

  /** The pieces are the blocks up to `After(plan)`, in order, each once. */
  ghost predicate PlanOk(plan: seq<Piece>, blocks: seq<Stored>, kids: Kids, config: Config) {
    plan == [] ||
    var before := plan[..|plan| - 1];
    && PlanOk(before, blocks, kids, config)
    && match plan[|plan| - 1]
       case Group(from, to, since) =>
         from == After(before) && GroupOk(blocks, kids, config, from, to, since)
         && StartsWell(before, blocks, kids, config, from, since)
       case CodeAt(at) => at == After(before) && at < |blocks| && IsCode(blocks[at])
       case TableAt(at) => at == After(before) && at < |blocks| && IsTable(blocks[at])
  }

  // ---------- the chunks of each piece ----------

  datatype ChunkKind = SectionChunk | GroupChunk | CodeChunk | TableChunk

  datatype Chunk = Chunk(index: nat, kind: ChunkKind, path: seq<string>, keys: seq<string>, content: string, tokenCount: nat,
                         parent: Option<nat>)

  function MakeChunk(index: nat, kind: ChunkKind, path: seq<string>, keys: seq<string>, content: string,
                     parent: Option<nat>): Chunk {
    Chunk(index, kind, path, keys, Trim(content), |Trim(content)|, parent)
  }

  datatype Context = Context(path: seq<string>, parent: nat)

  function Slice(blocks: seq<Stored>, from: nat, to: nat): seq<Stored> {
    var end := if to <= |blocks| then to else |blocks|;
    if from <= end then blocks[from..end] else []
  }

  function Before(blocks: seq<Stored>, index: nat, limit: nat): seq<Stored> {
    Slice(blocks, if index < limit then 0 else index - limit, index)
  }

  function Behind(blocks: seq<Stored>, index: nat, limit: nat): seq<Stored> {
    Slice(blocks, index + 1, index + limit + 1)
  }

  /** `joinCommandContext`: the command between the texts around it; tables around it add no text. */
  function CommandText(before: seq<Stored>, command: string, after: seq<Stored>): string {
    var beforeText := TextOf(before, map[]);
    var afterText := TextOf(after, map[]);
    Join((if beforeText != "" then ["Prerequisites / Risk / Step:\n" + beforeText] else [])
         + ["Command:\n" + Trim(command)]
         + (if afterText != "" then ["Verification / Rollback:\n" + afterText] else []), "\n\n")
  }

  function GroupChunkOf(blocks: seq<Stored>, kids: Kids, context: Context): Chunk {
    MakeChunk(0, GroupChunk, context.path, Unique(BlockKeys(blocks, kids)), TextOf(blocks, kids), Some(context.parent))
  }

  function CodeChunkOf(blocks: seq<Stored>, at: nat, limit: nat, context: Context): Chunk
    requires at < |blocks|
  {
    var before, after := Before(blocks, at, limit), Behind(blocks, at, limit);
    MakeChunk(0, CodeChunk, context.path, Unique([blocks[at].row.key] + Keys(before + after)),
              CommandText(before, blocks[at].row.text, after), Some(context.parent))
  }

  /** The lines of a table chunk: the header, then the rows with their numbers. */
  function TableLines(rows: seq<Stored>, kids: Kids, header: Stored, start: nat, n: nat): seq<string>
    requires start + n <= |rows|
  {
    if n == 0 then ["Header: " + RowText(header, kids)]
    else TableLines(rows, kids, header, start, n - 1)
         + ["Row " + Decimal.Dec(start + n) + ": " + RowText(rows[start + n - 1], kids)]
  }

  function TableKeys(table: Stored, header: Stored, rows: seq<Stored>, kids: Kids): seq<string> {
    [table.row.key, header.row.key] + Keys(KidsOf(kids, header.id)) + RowKeys(rows, kids)
  }

  /** The chunk of the data rows `start..end`. */
  function TableChunkOf(table: Stored, header: Stored, rows: seq<Stored>, kids: Kids, start: nat, end: nat,
                        context: Context): Chunk
    requires start <= end <= |rows|
  {
    MakeChunk(0, TableChunk, context.path, Unique(TableKeys(table, header, rows[start..end], kids)),
              Join(TableLines(rows, kids, header, start, end - start), "\n"), Some(context.parent))
  }

  function EndOfChunk(start: nat, perChunk: nat, n: nat): nat {
    if start + perChunk > n then n else start + perChunk
  }

  /** The chunks of the data rows from `start` on. */
  function RowChunks(table: Stored, header: Stored, rows: seq<Stored>, kids: Kids, perChunk: nat, start: nat,
                     context: Context): seq<Chunk>
    requires perChunk > 0
    decreases |rows| - start
  {
    if start >= |rows| then []
    else [TableChunkOf(table, header, rows, kids, start, EndOfChunk(start, perChunk, |rows|), context)]
         + RowChunks(table, header, rows, kids, perChunk, start + perChunk, context)
  }

  /** The data rows: all but the header, or the header itself when there is no other row. */
  function DataRows(rows: seq<Stored>): seq<Stored>
    requires rows != []
  {
    if |rows| == 1 then rows else rows[1..]
  }

  function TableChunks(table: Stored, kids: Kids, perChunk: nat, context: Context): seq<Chunk>
    requires perChunk > 0
  {
    var rows := KidsOf(kids, table.id);
    if rows == [] then [MakeChunk(0, TableChunk, context.path, [table.row.key], Trim(table.row.text), Some(context.parent))]
    else RowChunks(table, rows[0], DataRows(rows), kids, perChunk, 0, context)
  }

  predicate InBounds(piece: Piece, blocks: seq<Stored>) {
    match piece
    case Group(from, to, _) => from < to <= |blocks|
    case CodeAt(at) => at < |blocks|
    case TableAt(at) => at < |blocks|
  }

  function PieceChunks(piece: Piece, blocks: seq<Stored>, kids: Kids, config: Config, context: Context): seq<Chunk>
    requires InBounds(piece, blocks) && config.tableRowsPerChunk > 0
  {
    match piece
    case Group(from, to, _) => [GroupChunkOf(blocks[from..to], kids, context)]
    case CodeAt(at) => [CodeChunkOf(blocks, at, config.contextBlocks, context)]
    case TableAt(at) => TableChunks(blocks[at], kids, config.tableRowsPerChunk, context)
  }

  predicate AllInBounds(plan: seq<Piece>, blocks: seq<Stored>) {
    plan == [] || (InBounds(plan[|plan| - 1], blocks) && AllInBounds(plan[..|plan| - 1], blocks))
  }

  /** The children of a section. */
  function ChunksOf(plan: seq<Piece>, blocks: seq<Stored>, kids: Kids, config: Config, context: Context): seq<Chunk>
    requires AllInBounds(plan, blocks) && config.tableRowsPerChunk > 0
  {
    if plan == [] then []
    else ChunksOf(plan[..|plan| - 1], blocks, kids, config, context)
         + PieceChunks(plan[|plan| - 1], blocks, kids, config, context)
  }

  lemma {:induction false} PlanInBounds(plan: seq<Piece>, blocks: seq<Stored>, kids: Kids, config: Config)
    requires PlanOk(plan, blocks, kids, config)
    ensures AllInBounds(plan, blocks) && After(plan) <= |blocks|
  {
    if plan != [] {
      PlanInBounds(plan[..|plan| - 1], blocks, kids, config);
    }
  }

  // ---------- what the plan means ----------

  /** The plain blocks, in order. */
  function PlainBlocks(blocks: seq<Stored>, n: nat): seq<Stored>
    requires n <= |blocks|
  {
    if n == 0 then [] else PlainBlocks(blocks, n - 1) + if IsPlain(blocks[n - 1]) then [blocks[n - 1]] else []
  }

  function Grouped(plan: seq<Piece>, blocks: seq<Stored>): seq<Stored>
    requires AllInBounds(plan, blocks)
  {
    if plan == [] then []
    else Grouped(plan[..|plan| - 1], blocks)
         + match plan[|plan| - 1] case Group(from, to, _) => blocks[from..to] case CodeAt(_) => [] case TableAt(_) => []
  }

  lemma {:induction false} PlainRun(blocks: seq<Stored>, from: nat, to: nat)
    requires from <= to <= |blocks| && forall k :: from <= k < to ==> IsPlain(blocks[k])
    ensures PlainBlocks(blocks, to) == PlainBlocks(blocks, from) + blocks[from..to]
  {
    if from < to {
      PlainRun(blocks, from, to - 1);
      assert blocks[from..to] == blocks[from..to - 1] + [blocks[to - 1]];
    }
  }

  /** The plain blocks of one piece, which starts where the plain blocks before it end. */
  lemma PieceBlocks(piece: Piece, before: seq<Piece>, blocks: seq<Stored>, kids: Kids, config: Config)
    requires PlanOk(before + [piece], blocks, kids, config) && After(before) <= |blocks|
    ensures InBounds(piece, blocks) && After(before) <= After(before + [piece]) <= |blocks|
    ensures PlainBlocks(blocks, After(before + [piece])) ==
            PlainBlocks(blocks, After(before))
            + match piece case Group(from, to, _) => blocks[from..to] case CodeAt(_) => [] case TableAt(_) => []
  {
    var plan := before + [piece];
    assert plan[..|plan| - 1] == before && plan[|plan| - 1] == piece;
    hide Pulled, Overflows, StartsWell, IsPlain, Since;
    match piece
    case Group(from, to, _) => PlainRun(blocks, from, to);
    case CodeAt(at) => NoPlain(blocks, at);
    case TableAt(at) => NoPlain(blocks, at);
  }

  lemma NoPlain(blocks: seq<Stored>, at: nat)
    requires at < |blocks| && (IsCode(blocks[at]) || IsTable(blocks[at]))
    ensures PlainBlocks(blocks, at + 1) == PlainBlocks(blocks, at) + []
  {
    assert PlainBlocks(blocks, at) + [] == PlainBlocks(blocks, at);
  }

  /** The groups, one after the other, are the plain blocks: none is lost, doubled or moved. */
  lemma {:induction false} GroupsArePlainBlocks(plan: seq<Piece>, blocks: seq<Stored>, kids: Kids, config: Config)
    requires PlanOk(plan, blocks, kids, config)
    ensures AllInBounds(plan, blocks) && After(plan) <= |blocks|
    ensures Grouped(plan, blocks) == PlainBlocks(blocks, After(plan))
  {
    if plan != [] {
      var before, last := plan[..|plan| - 1], plan[|plan| - 1];
      GroupsArePlainBlocks(before, blocks, kids, config);
      assert before + [last] == plan;
      PieceBlocks(last, before, blocks, kids, config);
      hide After, PlainBlocks, InBounds;
    }
  }

  /** The running size was last set to zero no later than where the plan ends. */
  lemma {:induction false} SinceBound(plan: seq<Piece>, blocks: seq<Stored>, kids: Kids, config: Config)
    requires PlanOk(plan, blocks, kids, config)
    ensures Since(plan) <= After(plan) <= |blocks|
  {
    if plan != [] {
      SinceBound(plan[..|plan| - 1], blocks, kids, config);
    }
  }

  /** Piece j is a group that holds block i. */
  predicate InGroup(plan: seq<Piece>, j: nat, i: nat) {
    j < |plan| && plan[j].Group? && plan[j].from <= i < plan[j].to
  }

  /** Every plain block the plan has reached is in a group. */
  lemma {:induction false} PlainIsGrouped(plan: seq<Piece>, blocks: seq<Stored>, kids: Kids, config: Config, i: nat)
    returns (j: nat)
    requires PlanOk(plan, blocks, kids, config) && i < After(plan) && i < |blocks| && IsPlain(blocks[i])
    ensures InGroup(plan, j, i)
  {
    var before := plan[..|plan| - 1];
    if i < After(before) {
      j := PlainIsGrouped(before, blocks, kids, config, i);
    } else {
      j := |plan| - 1;
    }
  }

  /** A group starts with a block that no warning pulled in. */
  lemma {:induction false} GroupStart(plan: seq<Piece>, blocks: seq<Stored>, kids: Kids, config: Config, j: nat)
    requires PlanOk(plan, blocks, kids, config) && j < |plan| && plan[j].Group?
    ensures plan[j].from < |blocks| && !Pulled(blocks, config, plan[j].from)
    decreases |plan|
  {
    if j < |plan| - 1 {
      GroupStart(plan[..|plan| - 1], blocks, kids, config, j);
    }
  }

  /** A block that the warning before it pulls in is in a group, together with that warning. */
  lemma {:induction false} WarningKeepsNext(plan: seq<Piece>, blocks: seq<Stored>, kids: Kids, config: Config, i: nat)
    requires PlanOk(plan, blocks, kids, config) && i < After(plan) && i < |blocks| && Pulled(blocks, config, i)
    ensures i > 0 && config.warns(blocks[i - 1])
    ensures exists j :: InGroup(plan, j, i)
    ensures forall j :: InGroup(plan, j, i) ==> InGroup(plan, j, i - 1)
  {
    var j := PlainIsGrouped(plan, blocks, kids, config, i);
    forall j | InGroup(plan, j, i) ensures InGroup(plan, j, i - 1) {
      GroupStart(plan, blocks, kids, config, j);
    }
  }
}
