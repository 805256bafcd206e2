/** Packing the text blocks into chunks of at most `size` runes. */
module ChunkPacking {
  import opened Text
  import opened Chunker

  /** What one chunk is made of: consecutive whole blocks, or a stretch of one block too long for a chunk. */
  datatype Piece = Run(from: nat, to: nat) | Slice(block: nat, from: nat, to: nat)

  /** The contents of blocks `from..to`, with a blank line between neighbours. */
  function Joined(blocks: seq<TextBlock>, from: nat, to: nat): string
    requires from <= to <= |blocks|
  {
    if from == to then []
    else if from + 1 == to then blocks[from].content
    else Joined(blocks, from, to - 1) + "\n\n" + blocks[to - 1].content
  }

  ghost predicate RunOk(blocks: seq<TextBlock>, size: nat, from: nat, to: nat) {
    && from < to <= |blocks|
    && |Joined(blocks, from, to)| <= size
    && forall k :: from <= k < to ==> blocks[k].section == blocks[from].section
  }

  /** No slot is left for block `k` in the last chunk of the plan: it would overflow, or belongs to another section. */
  ghost predicate Separate(plan: seq<Piece>, blocks: seq<TextBlock>, size: nat, k: nat)
    requires k < |blocks|
  {
    plan != [] && plan[|plan| - 1].Run? ==>
      var last := plan[|plan| - 1];
      RunOk(blocks, size, last.from, last.to) &&
      (|| blocks[last.from].section != blocks[k].section
       || |Joined(blocks, last.from, last.to)| + 2 + |blocks[k].content| > size)
  }

  /**
   * The pieces cover the blocks gaplessly from the start up to rune `offset` of block `block`. Runs are as long as
   * `size` and the sections allow; slices cut an oversized block every `size` runes.
   */
  ghost predicate Tiles(plan: seq<Piece>, blocks: seq<TextBlock>, size: nat, block: nat, offset: nat) {
    if plan == [] then block == 0 && offset == 0
    else
      var before := plan[..|plan| - 1];
      match plan[|plan| - 1]
      case Run(from, to) =>
        && block == to && offset == 0
        && RunOk(blocks, size, from, to)
        && Separate(before, blocks, size, from)
        && Tiles(before, blocks, size, from, 0)
      case Slice(k, from, to) =>
        && k < |blocks| && 0 < size < |blocks[k].content|
        && from < |blocks[k].content|
        && to == (if from + size < |blocks[k].content| then from + size else |blocks[k].content|)
        && block == (if to == |blocks[k].content| then k + 1 else k)
        && offset == (if to == |blocks[k].content| then 0 else to)
        && Tiles(before, blocks, size, k, from)
  }

  ghost predicate InRange(piece: Piece, blocks: seq<TextBlock>) {
    match piece
    case Run(from, to) => from < to <= |blocks|
    case Slice(k, from, to) => k < |blocks| && from <= to <= |blocks[k].content|
  }

  ghost function PieceText(piece: Piece, blocks: seq<TextBlock>): string
    requires InRange(piece, blocks)
  {
    match piece
    case Run(from, to) => Joined(blocks, from, to)
    case Slice(k, from, to) => Trim(blocks[k].content[from..to])
  }

  ghost function PieceSection(piece: Piece, blocks: seq<TextBlock>): string
    requires InRange(piece, blocks)
  {
    match piece
    case Run(from, to) => blocks[from].section
    case Slice(k, from, to) => blocks[k].section
  }

  ghost predicate AllInRange(plan: seq<Piece>, blocks: seq<TextBlock>) {
    plan == [] || (InRange(plan[|plan| - 1], blocks) && AllInRange(plan[..|plan| - 1], blocks))
  }

  /** The chunks of the plan: one for each piece with a text, numbered in order. */
  ghost function ChunksOf(plan: seq<Piece>, blocks: seq<TextBlock>): (chunks: seq<Chunk>)
    requires AllInRange(plan, blocks)
    ensures |chunks| <= |plan|
  {
    if plan == [] then []
    else
      var before := ChunksOf(plan[..|plan| - 1], blocks);
      var last := plan[|plan| - 1];
      if PieceText(last, blocks) == [] then before
      else before + [NewChunk(|before|, PieceText(last, blocks), PieceSection(last, blocks))]
  }

  lemma {:induction false} TilesInRange(plan: seq<Piece>, blocks: seq<TextBlock>, size: nat, block: nat, offset: nat)
    requires Tiles(plan, blocks, size, block, offset)
    ensures AllInRange(plan, blocks)
    ensures block <= |blocks|
    ensures offset != 0 ==> block < |blocks| && offset < |blocks[block].content|
  {
    if plan != [] {
      var before := plan[..|plan| - 1];
      match plan[|plan| - 1]
      case Run(from, to) => TilesInRange(before, blocks, size, from, 0);
      case Slice(k, from, to) => TilesInRange(before, blocks, size, k, from);
    }
  }

  // ---------- joined texts ----------

  lemma {:induction false} TrimmedEnds(a: string, gap: string, b: string)
    requires a != [] && Trimmed(a) && b != [] && Trimmed(b)
    ensures a + gap + b != [] && Trimmed(a + gap + b)
  {
    var s := a + gap + b;
    assert s[0] == a[0] && s[|s| - 1] == b[|b| - 1];
  }

  lemma {:induction false} JoinedOk(blocks: seq<TextBlock>, from: nat, to: nat)
    requires BlocksTrimmed(blocks) && from < to <= |blocks|
    ensures Joined(blocks, from, to) != [] && Trimmed(Joined(blocks, from, to))
  {
    if from + 1 < to {
      JoinedOk(blocks, from, to - 1);
      assert BlockTrimmed(blocks[to - 1]);
      TrimmedEnds(Joined(blocks, from, to - 1), "\n\n", blocks[to - 1].content);
    }
  }

  /** The non-space runes of the blocks before the position. */
  function InkUpTo(blocks: seq<TextBlock>, block: nat, offset: nat): string
    requires block <= |blocks| && (offset != 0 ==> block < |blocks| && offset <= |blocks[block].content|)
  {
    BlocksInk(blocks[..block]) + if offset == 0 then [] else Ink(blocks[block].content[..offset])
  }

  lemma {:induction false} BlocksInkNext(blocks: seq<TextBlock>, k: nat)
    requires k < |blocks|
    ensures BlocksInk(blocks[..k + 1]) == BlocksInk(blocks[..k]) + Ink(blocks[k].content)
  {
    assert blocks[..k + 1][..k] == blocks[..k];
  }

  lemma {:induction false} InkJoinedNext(blocks: seq<TextBlock>, from: nat, to: nat)
    requires from + 1 < to <= |blocks|
    ensures Ink(Joined(blocks, from, to)) == Ink(Joined(blocks, from, to - 1)) + Ink(blocks[to - 1].content)
  {
    var head := Joined(blocks, from, to - 1);
    InkConcat(head + "\n\n", blocks[to - 1].content);
    InkConcat(head, "\n\n");
    assert "\n\n" == ['\n'] + ['\n'];
    InkConcat(['\n'], ['\n']);
    assert Ink("\n") == "";
    Regroup(Ink(head), [], []);
  }

  lemma {:induction false} InkJoined(blocks: seq<TextBlock>, from: nat, to: nat)
    requires from < to <= |blocks|
    ensures BlocksInk(blocks[..from]) + Ink(Joined(blocks, from, to)) == BlocksInk(blocks[..to])
  {
    BlocksInkNext(blocks, to - 1);
    if from + 1 < to {
      InkJoined(blocks, from, to - 1);
      var before, head, last := BlocksInk(blocks[..from]), Ink(Joined(blocks, from, to - 1)), Ink(blocks[to - 1].content);
      assert Ink(Joined(blocks, from, to)) == head + last by { InkJoinedNext(blocks, from, to); }
      Regroup(before, head, last);
    }
  }

  // ---------- conservation ----------

  function ChunksInk(chunks: seq<Chunk>): string {
    if chunks == [] then [] else ChunksInk(chunks[..|chunks| - 1]) + Ink(chunks[|chunks| - 1].content)
  }

  lemma {:induction false} ChunksInkNext(chunks: seq<Chunk>, chunk: Chunk)
    ensures ChunksInk(chunks + [chunk]) == ChunksInk(chunks) + Ink(chunk.content)
  {
    assert (chunks + [chunk])[..|chunks|] == chunks;
  }

  /** A piece adds to the chunks exactly the non-space runes it covers. */
  lemma {:induction false} PieceInk(plan: seq<Piece>, blocks: seq<TextBlock>)
    requires plan != [] && AllInRange(plan, blocks)
    ensures ChunksInk(ChunksOf(plan, blocks))
            == ChunksInk(ChunksOf(plan[..|plan| - 1], blocks)) + Ink(PieceText(plan[|plan| - 1], blocks))
  {
    var before := ChunksOf(plan[..|plan| - 1], blocks);
    var text := PieceText(plan[|plan| - 1], blocks);
    if text == [] {
      Regroup(ChunksInk(before), [], []);
      assert Ink([]) == [];
    } else {
      ChunksInkNext(before, NewChunk(|before|, text, PieceSection(plan[|plan| - 1], blocks)));
      InkTrim(text);
    }
  }

  lemma {:induction false} SliceInk(blocks: seq<TextBlock>, k: nat, from: nat, to: nat)
    requires k < |blocks| && from < to <= |blocks[k].content|
    ensures InkUpTo(blocks, k, from) + Ink(Trim(blocks[k].content[from..to])) == InkUpTo(blocks, k, to)
  {
    var text := blocks[k].content;
    InkTrim(text[from..to]);
    assert text[..to] == text[..from] + text[from..to];
    InkConcat(text[..from], text[from..to]);
    assert from == 0 ==> Ink(text[..from]) == [];
    Regroup(BlocksInk(blocks[..k]), Ink(text[..from]), Ink(text[from..to]));
  }

  lemma {:induction false} WholeBlockInk(blocks: seq<TextBlock>, k: nat)
    requires k < |blocks| && blocks[k].content != []
    ensures InkUpTo(blocks, k, |blocks[k].content|) == InkUpTo(blocks, k + 1, 0)
  {
    var text := blocks[k].content;
    assert text[..|text|] == text;
    BlocksInkNext(blocks, k);
    Regroup(BlocksInk(blocks[..k + 1]), [], []);
  }

  /** The chunks of a tiling hold exactly the non-space runes of the part it covers, in order. */
  lemma {:induction false} TilesKeepInk(plan: seq<Piece>, blocks: seq<TextBlock>, size: nat, block: nat, offset: nat)
    requires Tiles(plan, blocks, size, block, offset)
    ensures AllInRange(plan, blocks) && block <= |blocks|
    ensures offset != 0 ==> block < |blocks| && offset < |blocks[block].content|
    ensures ChunksInk(ChunksOf(plan, blocks)) == InkUpTo(blocks, block, offset)
  {
    TilesInRange(plan, blocks, size, block, offset);
    if plan != [] {
      var before := plan[..|plan| - 1];
      PieceInk(plan, blocks);
      match plan[|plan| - 1]
      case Run(from, to) =>
        TilesKeepInk(before, blocks, size, from, 0);
        InkJoined(blocks, from, to);
        Regroup(BlocksInk(blocks[..from]), [], []);
        Regroup(BlocksInk(blocks[..to]), [], []);
      case Slice(k, from, to) =>
        TilesKeepInk(before, blocks, size, k, from);
        SliceInk(blocks, k, from, to);
        if to == |blocks[k].content| {
          WholeBlockInk(blocks, k);
        }
    }
  }

  // ---------- shape of each chunk ----------

  /** A chunk is never empty, has no white space at its ends, fits the size, and counts its own runes. */
  ghost predicate ChunkOk(chunk: Chunk, position: nat, size: nat) {
    && chunk.index == position
    && chunk.content != [] && Trimmed(chunk.content) && |chunk.content| <= size
    && chunk.tokenCount == |chunk.content|
  }

  /** The texts of blocks `from..end`. */
  function Texts(blocks: seq<TextBlock>, from: nat, end: nat): (r: seq<string>)
    requires from <= end <= |blocks|
    ensures |r| == end - from
    ensures forall k :: 0 <= k < |r| ==> r[k] == blocks[from + k].content
  {
    if from == end then [] else Texts(blocks, from, end - 1) + [blocks[end - 1].content]
  }

  ghost predicate WholeBlocks(chunk: Chunk, blocks: seq<TextBlock>, from: nat, end: nat) {
    && from < end <= |blocks| && chunk.content == Join(Texts(blocks, from, end), "\n\n")
    && forall k :: from <= k < end ==> chunk.section == Trim(blocks[k].section)
  }

  ghost predicate PartOfBlock(chunk: Chunk, blocks: seq<TextBlock>, k: nat, from: nat, end: nat) {
    && k < |blocks| && from <= end <= |blocks[k].content| && chunk.content == Trim(blocks[k].content[from..end])
    && chunk.section == Trim(blocks[k].section)
  }

  /** A chunk is some blocks with blank lines between them, or a stretch of one, under their section. */
  ghost predicate MadeFrom(chunk: Chunk, blocks: seq<TextBlock>) {
    || (exists from: nat, end: nat :: WholeBlocks(chunk, blocks, from, end))
    || (exists k: nat, from: nat, end: nat :: PartOfBlock(chunk, blocks, k, from, end))
  }

  lemma {:induction false} JoinedTexts(blocks: seq<TextBlock>, from: nat, end: nat)
    requires from < end <= |blocks|
    ensures Joined(blocks, from, end) == Join(Texts(blocks, from, end), "\n\n")
  {
    if from + 1 < end {
      JoinedTexts(blocks, from, end - 1);
      JoinLast(Texts(blocks, from, end - 1), blocks[end - 1].content, "\n\n");
    } else {
      assert Texts(blocks, from, end) == [blocks[from].content];
    }
  }

  lemma {:induction false} PieceMakes(piece: Piece, blocks: seq<TextBlock>, size: nat, position: nat)
    requires BlocksTrimmed(blocks) && InRange(piece, blocks)
    requires piece.Run? ==> RunOk(blocks, size, piece.from, piece.to)
    ensures MadeFrom(NewChunk(position, PieceText(piece, blocks), PieceSection(piece, blocks)), blocks)
  {
    var chunk := NewChunk(position, PieceText(piece, blocks), PieceSection(piece, blocks));
    if piece.Run? {
      JoinedOk(blocks, piece.from, piece.to);
    }
    TrimOfTrimmed(PieceText(piece, blocks));
    hide Trim, Joined, Join;
    match piece {
      case Run(from, to) =>
        JoinedTexts(blocks, from, to);
        assert WholeBlocks(chunk, blocks, from, to);
      case Slice(k, from, to) =>
        assert PartOfBlock(chunk, blocks, k, from, to);
    }
  }

  lemma {:induction false} TilesMake(plan: seq<Piece>, blocks: seq<TextBlock>, size: nat, block: nat, offset: nat)
    requires BlocksTrimmed(blocks) && Tiles(plan, blocks, size, block, offset)
    ensures AllInRange(plan, blocks)
    ensures forall i :: 0 <= i < |ChunksOf(plan, blocks)| ==> MadeFrom(ChunksOf(plan, blocks)[i], blocks)
  {
    TilesInRange(plan, blocks, size, block, offset);
    if plan != [] {
      var before := plan[..|plan| - 1];
      var last := plan[|plan| - 1];
      match last {
        case Run(from, to) => TilesMake(before, blocks, size, from, 0);
        case Slice(k, from, to) => TilesMake(before, blocks, size, k, from);
      }
      hide PieceText, PieceSection, MadeFrom, RunOk, Separate, NewChunk, BlocksTrimmed, Tiles;
      if PieceText(last, blocks) != [] {
        PieceMakes(last, blocks, size, |ChunksOf(before, blocks)|);
      }
    }
  }

  lemma {:induction false} PieceChunkOk(piece: Piece, blocks: seq<TextBlock>, size: nat, position: nat)
    requires BlocksTrimmed(blocks) && InRange(piece, blocks) && PieceText(piece, blocks) != []
    requires match piece case Run(from, to) => RunOk(blocks, size, from, to) case Slice(k, from, to) => to <= from + size
    ensures ChunkOk(NewChunk(position, PieceText(piece, blocks), PieceSection(piece, blocks)), position, size)
    ensures NewChunk(position, PieceText(piece, blocks), PieceSection(piece, blocks)).content == PieceText(piece, blocks)
  {
    if piece.Run? {
      JoinedOk(blocks, piece.from, piece.to);
    }
    TrimOfTrimmed(PieceText(piece, blocks));
  }

  lemma {:induction false} TilesChunksOk(plan: seq<Piece>, blocks: seq<TextBlock>, size: nat, block: nat, offset: nat)
    requires BlocksTrimmed(blocks) && Tiles(plan, blocks, size, block, offset)
    ensures AllInRange(plan, blocks)
    ensures forall i :: 0 <= i < |ChunksOf(plan, blocks)| ==> ChunkOk(ChunksOf(plan, blocks)[i], i, size)
  {
    TilesInRange(plan, blocks, size, block, offset);
    if plan != [] {
      var before := plan[..|plan| - 1];
      var last := plan[|plan| - 1];
      match last {
        case Run(from, to) => TilesChunksOk(before, blocks, size, from, 0);
        case Slice(k, from, to) => TilesChunksOk(before, blocks, size, k, from);
      }
      if PieceText(last, blocks) != [] {
        PieceChunkOk(last, blocks, size, |ChunksOf(before, blocks)|);
      }
    }
  }

  // ---------- the packing loop ----------

  function Flushed(chunks: seq<Chunk>, current: string, section: string): seq<Chunk> {
    var value := Trim(current);
    if value == [] then chunks else chunks + [NewChunk(|chunks|, value, section)]
  }

  /** What the loop keeps before block `i`: the plan tiles the blocks before `start`, and `current` holds `start..i`. */
  ghost predicate Packing(chunks: seq<Chunk>, plan: seq<Piece>, blocks: seq<TextBlock>, size: nat,
                          start: nat, i: nat, current: string, section: string) {
    && start <= i <= |blocks|
    && Tiles(plan, blocks, size, start, 0)
    && AllInRange(plan, blocks)
    && chunks == ChunksOf(plan, blocks)
    && current == Joined(blocks, start, i)
    && (start < i ==> RunOk(blocks, size, start, i) && section == blocks[start].section && Separate(plan, blocks, size, start))
  }

  ghost function FlushedPlan(plan: seq<Piece>, start: nat, i: nat): seq<Piece> {
    if start < i then plan + [Run(start, i)] else plan
  }

  lemma {:induction false} FlushKeeps(chunks: seq<Chunk>, plan: seq<Piece>, blocks: seq<TextBlock>, size: nat,
                                      start: nat, i: nat, current: string, section: string)
    requires BlocksTrimmed(blocks) && Packing(chunks, plan, blocks, size, start, i, current, section)
    ensures Packing(Flushed(chunks, current, section), FlushedPlan(plan, start, i), blocks, size, i, i, [], section)
  {
    if start < i {
      JoinedOk(blocks, start, i);
      TrimOfTrimmed(current);
      assert FlushedPlan(plan, start, i)[..|plan|] == plan;
    }
  }

  function Pushed(current: string, content: string): string {
    if |current| > 0 then current + "\n\n" + content else content
  }

  lemma {:induction false} RunGrows(blocks: seq<TextBlock>, size: nat, start: nat, i: nat)
    requires BlocksTrimmed(blocks) && start <= i < |blocks|
    requires start < i ==> RunOk(blocks, size, start, i) && blocks[start].section == blocks[i].section
    requires |Joined(blocks, start, i)| + (if start < i then 2 else 0) + |blocks[i].content| <= size
    ensures RunOk(blocks, size, start, i + 1)
    ensures Joined(blocks, start, i + 1) == Pushed(Joined(blocks, start, i), blocks[i].content)
  {
    if start < i {
      JoinedOk(blocks, start, i);
    }
    assert |Joined(blocks, start, i + 1)| <= size;
  }

  /** One block joins the run in the making. */
  lemma {:induction false} PushKeeps(chunks: seq<Chunk>, plan: seq<Piece>, blocks: seq<TextBlock>, size: nat,
                                     start: nat, i: nat, current: string, section: string)
    requires BlocksTrimmed(blocks) && i < |blocks| && Packing(chunks, plan, blocks, size, start, i, current, section)
    requires start == i ==> |blocks[i].content| <= size && Separate(plan, blocks, size, i)
    requires start < i ==> section == blocks[i].section && |current| + 2 + |blocks[i].content| <= size
    ensures Packing(chunks, plan, blocks, size, start, i + 1, Pushed(current, blocks[i].content), blocks[i].section)
  {
    RunGrows(blocks, size, start, i);
  }

  /** The first slice of an oversized block follows a flush. */
  lemma {:induction false} SliceKeeps(plan: seq<Piece>, blocks: seq<TextBlock>, size: nat, k: nat, from: nat, to: nat)
    requires k < |blocks| && 0 < size < |blocks[k].content|
    requires Tiles(plan, blocks, size, k, from) && AllInRange(plan, blocks) && from < |blocks[k].content|
    requires to == if from + size < |blocks[k].content| then from + size else |blocks[k].content|
    ensures var grown := plan + [Slice(k, from, to)];
            && AllInRange(grown, blocks)
            && Tiles(grown, blocks, size, if to == |blocks[k].content| then k + 1 else k,
                     if to == |blocks[k].content| then 0 else to)
            && ChunksOf(grown, blocks) == Flushed(ChunksOf(plan, blocks), blocks[k].content[from..to], blocks[k].section)
  {
    var grown := plan + [Slice(k, from, to)];
    assert grown[..|plan|] == plan;
    var part := blocks[k].content[from..to];
    TrimOfTrimmed(Trim(part));
  }

  /** Cut an oversized block every `size` runes; slices of white space only give no chunk. */
  method SplitLong(chunks0: seq<Chunk>, blocks: seq<TextBlock>, k: nat, size: nat, ghost plan0: seq<Piece>)
    returns (chunks: seq<Chunk>, ghost plan: seq<Piece>)
    requires k < |blocks| && 0 < size < |blocks[k].content|
    requires Tiles(plan0, blocks, size, k, 0) && AllInRange(plan0, blocks) && chunks0 == ChunksOf(plan0, blocks)
    ensures Tiles(plan, blocks, size, k + 1, 0) && AllInRange(plan, blocks) && chunks == ChunksOf(plan, blocks)
    ensures plan[|plan| - 1].Slice?
  {
    chunks, plan := chunks0, plan0;
    var runes := blocks[k].content;
    var start := 0;
    while true
      invariant start < |runes|
      invariant Tiles(plan, blocks, size, k, start) && AllInRange(plan, blocks) && chunks == ChunksOf(plan, blocks)
      decreases |runes| - start
    {
      var end := start + size;
      if end > |runes| {
        end := |runes|;
      }
      SliceKeeps(plan, blocks, size, k, start, end);
      plan := plan + [Slice(k, start, end)];
      var part := Trim(runes[start..end]);
      if part != [] {
        chunks := chunks + [NewChunk(|chunks|, part, blocks[k].section)];
      }
      if end == |runes| {
        break;
      }
      start := end;
    }
  }

  lemma {:induction false} ClosedRun(plan: seq<Piece>, blocks: seq<TextBlock>, size: nat, start: nat, i: nat)
    requires start < i < |blocks| && RunOk(blocks, size, start, i)
    requires || blocks[start].section != blocks[i].section
             || |Joined(blocks, start, i)| + 2 + |blocks[i].content| > size
    ensures Separate(FlushedPlan(plan, start, i), blocks, size, i)
  {
  }

  /** Close the current chunk when block `i` would overflow it or starts another section. */
  method MakeRoom(chunks0: seq<Chunk>, blocks: seq<TextBlock>, i: nat, size: nat, current0: string, section: string,
                  ghost plan0: seq<Piece>, ghost start0: nat)
    returns (chunks: seq<Chunk>, current: string, ghost plan: seq<Piece>, ghost start: nat)
    requires BlocksTrimmed(blocks) && i < |blocks| && |blocks[i].content| <= size
    requires Packing(chunks0, plan0, blocks, size, start0, i, current0, section)
    requires start0 == i ==> Separate(plan0, blocks, size, i)
    ensures Packing(chunks, plan, blocks, size, start, i, current, section)
    ensures start == i ==> Separate(plan, blocks, size, i)
    ensures start < i ==> section == blocks[i].section && |current| + 2 + |blocks[i].content| <= size
    ensures start == i <==> current == []
  {
    chunks, current, plan, start := chunks0, current0, plan0, start0;
    if start < i {
      JoinedOk(blocks, start, i);
      TrimOfTrimmed(current);
    }
    FlushKeeps(chunks, plan, blocks, size, start, i, current, section);
    var nextSize := |Trim(current)| + |blocks[i].content|;
    if |current| > 0 {
      nextSize := nextSize + 2;
    }
    if |current| > 0 && nextSize > size {
      ClosedRun(plan, blocks, size, start, i);
      chunks, current := Flushed(chunks, current, section), [];
      plan, start := FlushedPlan(plan, start, i), i;
    }
    if |current| > 0 && blocks[i].section != section {
      ClosedRun(plan, blocks, size, start, i);
      chunks, current := Flushed(chunks, current, section), [];
      plan, start := FlushedPlan(plan, start, i), i;
    }
  }

  ghost predicate NoOpenRun(plan: seq<Piece>) {
    plan == [] || plan[|plan| - 1].Slice?
  }

  /** Put a block that fits a chunk into the current one. */
  method PackShort(chunks0: seq<Chunk>, blocks: seq<TextBlock>, i: nat, size: nat, current0: string, section0: string,
                   ghost plan0: seq<Piece>, ghost start0: nat)
    returns (chunks: seq<Chunk>, current: string, section: string, ghost plan: seq<Piece>, ghost start: nat)
    requires BlocksTrimmed(blocks) && i < |blocks| && |blocks[i].content| <= size
    requires Packing(chunks0, plan0, blocks, size, start0, i, current0, section0)
    requires start0 == i ==> NoOpenRun(plan0)
    ensures Packing(chunks, plan, blocks, size, start, i + 1, current, section) && start <= i
  {
    chunks, current, plan, start := MakeRoom(chunks0, blocks, i, size, current0, section0, plan0, start0);
    section := section0;
    PushKeeps(chunks, plan, blocks, size, start, i, current, section);
    ghost var pushed := Pushed(current, blocks[i].content);
    if |current| > 0 {
      current := current + "\n\n";
    }
    if |current| == 0 {
      section := blocks[i].section;
    }
    current := current + blocks[i].content;
    assert current == pushed;
  }

  /** Close the current chunk and cut up a block that fits none. */
  method PackLong(chunks0: seq<Chunk>, blocks: seq<TextBlock>, i: nat, size: nat, current: string, section: string,
                  ghost plan0: seq<Piece>, ghost start: nat)
    returns (chunks: seq<Chunk>, ghost plan: seq<Piece>)
    requires BlocksTrimmed(blocks) && i < |blocks| && 0 < size < |blocks[i].content|
    requires Packing(chunks0, plan0, blocks, size, start, i, current, section)
    ensures Packing(chunks, plan, blocks, size, i + 1, i + 1, [], section) && NoOpenRun(plan)
  {
    FlushKeeps(chunks0, plan0, blocks, size, start, i, current, section);
    chunks, plan := Flushed(chunks0, current, section), FlushedPlan(plan0, start, i);
    chunks, plan := SplitLong(chunks, blocks, i, size, plan);
  }

  method PackBlock(chunks0: seq<Chunk>, blocks: seq<TextBlock>, i: nat, size: nat, current0: string, section0: string,
                   ghost plan0: seq<Piece>, ghost start0: nat)
    returns (chunks: seq<Chunk>, current: string, section: string, ghost plan: seq<Piece>, ghost start: nat)
    requires BlocksTrimmed(blocks) && i < |blocks| && size > 0
    requires Packing(chunks0, plan0, blocks, size, start0, i, current0, section0)
    requires start0 == i ==> NoOpenRun(plan0)
    ensures Packing(chunks, plan, blocks, size, start, i + 1, current, section)
    ensures start == i + 1 ==> NoOpenRun(plan)
  {
    if |blocks[i].content| > size {
      chunks, plan := PackLong(chunks0, blocks, i, size, current0, section0, plan0, start0);
      current, section, start := [], section0, i + 1;
    } else {
      chunks, current, section, plan, start := PackShort(chunks0, blocks, i, size, current0, section0, plan0, start0);
    }
  }

  /** The flush after the last block. */
  method Finish(chunks0: seq<Chunk>, blocks: seq<TextBlock>, size: nat, current: string, section: string,
                ghost plan0: seq<Piece>, ghost start: nat)
    returns (chunks: seq<Chunk>, ghost plan: seq<Piece>)
    requires BlocksTrimmed(blocks) && Packing(chunks0, plan0, blocks, size, start, |blocks|, current, section)
    ensures Tiles(plan, blocks, size, |blocks|, 0) && AllInRange(plan, blocks) && chunks == ChunksOf(plan, blocks)
  {
    FlushKeeps(chunks0, plan0, blocks, size, start, |blocks|, current, section);
    chunks, plan := Flushed(chunks0, current, section), FlushedPlan(plan0, start, |blocks|);
  }

  lemma {:induction false} NothingPacked(blocks: seq<TextBlock>, size: nat)
    ensures Packing([], [], blocks, size, 0, 0, [], []) && NoOpenRun([])
  {
  }

  /** All blocks, packed: the chunks before the overlap pass. */
  method PackBlocks(blocks: seq<TextBlock>, size: nat) returns (chunks: seq<Chunk>, ghost plan: seq<Piece>)
    requires BlocksTrimmed(blocks) && size > 0
    ensures Tiles(plan, blocks, size, |blocks|, 0) && AllInRange(plan, blocks) && chunks == ChunksOf(plan, blocks)
  {
    hide *;
    chunks, plan := [], [];
    var current, currentSection: string := [], [];
    ghost var start: nat := 0;
    NothingPacked(blocks, size);
    for i := 0 to |blocks|
      invariant Packing(chunks, plan, blocks, size, start, i, current, currentSection)
      invariant start == i ==> NoOpenRun(plan)
    {
      chunks, current, currentSection, plan, start :=
        PackBlock(chunks, blocks, i, size, current, currentSection, plan, start);
    }
    chunks, plan := Finish(chunks, blocks, size, current, currentSection, plan, start);
  }

  /** The chunks of a whole packing hold the text of the input and nothing else, and each keeps the limits. */
  lemma {:induction false} PackingIsFaithful(content: string, blocks: seq<TextBlock>, size: nat, plan: seq<Piece>)
    requires BlocksTrimmed(blocks) && BlocksInk(blocks) == Ink(content)
    requires Tiles(plan, blocks, size, |blocks|, 0)
    ensures AllInRange(plan, blocks)
    ensures ChunksInk(ChunksOf(plan, blocks)) == Ink(content)
    ensures forall i :: 0 <= i < |ChunksOf(plan, blocks)| ==> ChunkOk(ChunksOf(plan, blocks)[i], i, size)
    ensures forall i :: 0 <= i < |ChunksOf(plan, blocks)| ==> MadeFrom(ChunksOf(plan, blocks)[i], blocks)
  {
    TilesMake(plan, blocks, size, |blocks|, 0);
    TilesKeepInk(plan, blocks, size, |blocks|, 0);
    TilesChunksOk(plan, blocks, size, |blocks|, 0);
    assert blocks[..|blocks|] == blocks;
    Regroup(BlocksInk(blocks), [], []);
  }
}
