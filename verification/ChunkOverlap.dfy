/** The overlap pass: each chunk starts with the tail of the chunk before it. */
module ChunkOverlap {
  import opened Text
  import opened Chunker
  import opened ChunkPacking

  ghost predicate EndsWith(s: string, suffix: string) {
    |suffix| <= |s| && s[|s| - |suffix|..] == suffix
  }

  /** At most `count` runes from the end of the text. */
  function TailRunes(value: string, count: nat): (tail: string)
    ensures |tail| <= count && Trimmed(tail)
  {
    var runes := Trim(value);
    if |runes| <= count then runes else Trim(runes[|runes| - count..])
  }

  lemma {:induction false} TrimLeftSuffix(s: string, t: string)
    ensures EndsWith(s, TrimLeft(s))
    ensures EndsWith(s, t) && t != [] && !IsSpace(t[0]) ==> |t| <= |TrimLeft(s)|
  {
    hide IsSpace;
    if s != [] && IsSpace(s[0]) {
      TrimLeftSuffix(s[1..], t);
      assert s[|s| - |TrimLeft(s)|..] == s[1..][|s| - 1 - |TrimLeft(s)|..];
      if EndsWith(s, t) && |t| < |s| {
        assert s[|s| - |t|..] == s[1..][|s| - 1 - |t|..];
      }
    }
  }

  /** The tail is the longest end of the text that starts and ends without white space and has at most `count` runes. */
  lemma {:induction false} TailIsLongest(value: string, count: nat, t: string)
    ensures EndsWith(Trim(value), TailRunes(value, count))
    ensures EndsWith(Trim(value), t) && Trimmed(t) && |t| <= count ==> |t| <= |TailRunes(value, count)|
  {
    var runes := Trim(value);
    hide Trim, IsSpace;
    if |runes| > count {
      CutIsLongest(runes, count, t);
    }
  }

  lemma {:induction false} CutIsLongest(runes: string, count: nat, t: string)
    requires Trimmed(runes) && count < |runes|
    ensures EndsWith(runes, Trim(runes[|runes| - count..]))
    ensures EndsWith(runes, t) && Trimmed(t) && |t| <= count ==> |t| <= |Trim(runes[|runes| - count..])|
  {
    var end := runes[|runes| - count..];
    hide *;
    CutEnd(runes, count);
    TrimLeftSuffix(end, t);
    EndOfEnd(runes, count, TrimLeft(end));
    if |t| <= count && Trimmed(t) {
      TrimmedStart(t);
      EndOfEnd(runes, count, t);
    }
  }

  lemma TrimmedStart(t: string)
    requires Trimmed(t)
    ensures t == [] || !IsSpace(t[0])
  {
  }

  lemma EndOfEnd(s: string, count: nat, t: string)
    requires |t| <= count <= |s|
    ensures EndsWith(s, t) <==> EndsWith(s[|s| - count..], t)
  {
    assert s[|s| - count..][count - |t|..] == s[|s| - |t|..];
  }

  /** The end of a trimmed text needs trimming at its front only. */
  lemma CutEnd(runes: string, count: nat)
    requires Trimmed(runes) && count < |runes|
    ensures Trim(runes[|runes| - count..]) == TrimLeft(runes[|runes| - count..])
  {
    hide IsSpace, TrimLeft;
    var end := runes[|runes| - count..];
    var tail := TrimLeft(end);
    TrimLeftSuffix(end, end);
    if tail != [] {
      assert end[|end| - |tail|..][|tail| - 1] == end[|end| - 1] == runes[|runes| - 1];
    }
  }

  function WithOverlap(previous: Chunk, chunk: Chunk, overlap: nat): Chunk {
    var tail := TailRunes(previous.content, overlap);
    if tail == [] || HasPrefix(chunk.content, tail) then chunk
    else
      var content := Trim(tail + "\n\n" + chunk.content);
      chunk.(content := content, tokenCount := |content|)
  }

  /** All chunks after the pass; the tail is taken from the chunk before, as the pass has already left it. */
  function Overlapped(chunks: seq<Chunk>, overlap: nat): (r: seq<Chunk>)
    ensures |r| == |chunks|
  {
    if chunks == [] then []
    else
      var last := chunks[|chunks| - 1];
      var before := Overlapped(chunks[..|chunks| - 1], overlap);
      before + [if before == [] then last else WithOverlap(before[|before| - 1], last, overlap)]
  }

  lemma {:induction false} OverlappedAt(chunks: seq<Chunk>, overlap: nat, k: nat)
    requires k < |chunks|
    ensures Overlapped(chunks, overlap)[k]
            == if k == 0 then chunks[0] else WithOverlap(Overlapped(chunks, overlap)[k - 1], chunks[k], overlap)
  {
    if k < |chunks| - 1 {
      OverlappedAt(chunks[..|chunks| - 1], overlap, k);
    }
  }

  /** The chunk after the pass against the chunk before it. */
  ghost predicate Extended(final: Chunk, chunk: Chunk, size: nat, overlap: nat) {
    && EndsWith(final.content, chunk.content)
    && |final.content| <= size + overlap + 2
    && final.tokenCount == |final.content|
    && final.index == chunk.index && final.section == chunk.section
    && Trimmed(final.content) && final.content != []
  }

  lemma {:induction false} WithOverlapExtends(previous: Chunk, chunk: Chunk, position: nat, size: nat, overlap: nat)
    requires ChunkOk(chunk, position, size)
    ensures Extended(WithOverlap(previous, chunk, overlap), chunk, size, overlap)
    ensures HasPrefix(WithOverlap(previous, chunk, overlap).content, TailRunes(previous.content, overlap))
    ensures WithOverlap(previous, chunk, overlap).content
            in [chunk.content, TailRunes(previous.content, overlap) + "\n\n" + chunk.content]
  {
    var tail := TailRunes(previous.content, overlap);
    if tail != [] && !HasPrefix(chunk.content, tail) {
      TrimmedEnds(tail, "\n\n", chunk.content);
      TrimOfTrimmed(tail + "\n\n" + chunk.content);
      var content := tail + "\n\n" + chunk.content;
      assert content[|content| - |chunk.content|..] == chunk.content;
    }
  }

  /**
   * Every chunk keeps its own text as its end, starts with the tail of the chunk before it, and is longer than the
   * chunk size by no more than the overlap and the blank line.
   */
  lemma {:induction false} OverlapGuarantees(chunks: seq<Chunk>, size: nat, overlap: nat, k: nat)
    requires forall i :: 0 <= i < |chunks| ==> ChunkOk(chunks[i], i, size)
    requires k < |chunks|
    ensures Extended(Overlapped(chunks, overlap)[k], chunks[k], size, overlap)
    ensures Overlapped(chunks, overlap)[k].index == k
    ensures k > 0 ==> HasPrefix(Overlapped(chunks, overlap)[k].content,
                                TailRunes(Overlapped(chunks, overlap)[k - 1].content, overlap))
    ensures k > 0 ==> Overlapped(chunks, overlap)[k].content
                      in [chunks[k].content,
                          TailRunes(Overlapped(chunks, overlap)[k - 1].content, overlap) + "\n\n" + chunks[k].content]
    ensures k == 0 ==> Overlapped(chunks, overlap)[k] == chunks[k]
  {
    OverlappedAt(chunks, overlap, k);
    assert ChunkOk(chunks[k], k, size);
    if k > 0 {
      WithOverlapExtends(Overlapped(chunks, overlap)[k - 1], chunks[k], k, size, overlap);
    } else {
      assert EndsWith(chunks[0].content, chunks[0].content);
    }
  }

  lemma {:induction false} OverlappedIndex(chunks: seq<Chunk>, overlap: nat, k: nat)
    requires k < |chunks|
    ensures Overlapped(chunks, overlap)[k].index == chunks[k].index
  {
    OverlappedAt(chunks, overlap, k);
  }

  /** The pass is done up to `index`. */
  ghost predicate DoneTo(now: seq<Chunk>, before: seq<Chunk>, overlap: nat, index: nat) {
    && |now| == |before|
    && (forall k :: 0 <= k < index && k < |now| ==> now[k] == Overlapped(before, overlap)[k])
    && (forall k :: index <= k < |now| ==> now[k] == before[k])
  }

  lemma {:induction false} DoneFirst(before: seq<Chunk>, overlap: nat)
    ensures DoneTo(before, before, overlap, 1)
  {
    if before != [] {
      OverlappedAt(before, overlap, 0);
    }
  }

  lemma {:induction false} DoneNext(now: seq<Chunk>, before: seq<Chunk>, overlap: nat, index: nat)
    requires DoneTo(now, before, overlap, index) && 1 <= index < |now|
    ensures DoneTo(now[index := WithOverlap(now[index - 1], now[index], overlap)], before, overlap, index + 1)
  {
    OverlappedAt(before, overlap, index);
  }

  lemma {:induction false} DoneAll(now: seq<Chunk>, before: seq<Chunk>, overlap: nat, index: nat)
    requires DoneTo(now, before, overlap, index) && |now| <= index
    ensures now == Overlapped(before, overlap)
  {
  }

  /** One step of the pass, in place. */
  method ExtendChunk(chunks: array<Chunk>, index: nat, overlap: nat)
    requires 1 <= index < chunks.Length
    modifies chunks
    ensures chunks[..] == old(chunks[..])[index := WithOverlap(old(chunks[index - 1]), old(chunks[index]), overlap)]
  {
    var tail := TailRunes(chunks[index - 1].content, overlap);
    if tail != [] && !HasPrefix(chunks[index].content, tail) {
      chunks[index] := chunks[index].(content := Trim(tail + "\n\n" + chunks[index].content));
      chunks[index] := chunks[index].(tokenCount := |chunks[index].content|);
    }
  }

  /** The pass rewrites the chunks in place, front to back, then numbers them again. */
  method ApplyOverlap(chunks: array<Chunk>, overlap: nat)
    requires Numbered(chunks[..])
    modifies chunks
    ensures chunks[..] == Overlapped(old(chunks[..]), overlap)
  {
    ghost var before := chunks[..];
    DoneFirst(before, overlap);
    var index: nat := 1;
    while index < chunks.Length
      invariant DoneTo(chunks[..], before, overlap, index)
    {
      DoneNext(chunks[..], before, overlap, index);
      ExtendChunk(chunks, index, overlap);
      index := index + 1;
    }
    DoneAll(chunks[..], before, overlap, index);
    Renumber(chunks, before, overlap);
  }

  predicate Numbered(chunks: seq<Chunk>) {
    forall i :: 0 <= i < |chunks| ==> chunks[i].index == i
  }

  /** The pass leaves every number as it was, so numbering the chunks again changes nothing. */
  method Renumber(chunks: array<Chunk>, ghost before: seq<Chunk>, ghost overlap: nat)
    requires chunks[..] == Overlapped(before, overlap) && Numbered(before)
    modifies chunks
    ensures chunks[..] == old(chunks[..])
  {
    for k := 0 to chunks.Length
      invariant chunks[..] == old(chunks[..])
    {
      OverlappedIndex(before, overlap, k);
      assert chunks[..][k].index == k;
      chunks[k] := chunks[k].(index := k);
    }
  }

  lemma {:induction false} PackedNumbered(content: string, blocks: seq<TextBlock>, size: nat, plan: seq<Piece>)
    requires BlocksTrimmed(blocks) && BlocksInk(blocks) == Ink(content)
    requires Tiles(plan, blocks, size, |blocks|, 0) && AllInRange(plan, blocks)
    ensures Numbered(ChunksOf(plan, blocks))
  {
    PackingIsFaithful(content, blocks, size, plan);
    forall i | 0 <= i < |ChunksOf(plan, blocks)| ensures ChunksOf(plan, blocks)[i].index == i {
      assert ChunkOk(ChunksOf(plan, blocks)[i], i, size);
    }
  }

  /** The chunks returned, against the packing they come from. */
  ghost predicate Built(chunks: seq<Chunk>, packed: seq<Chunk>, size: nat, overlap: nat) {
    && |chunks| == |packed|
    && forall k :: 0 <= k < |chunks| ==> chunks[k].index == k && Extended(chunks[k], packed[k], size, overlap)
  }

  lemma {:induction false} OverlappedIsBuilt(packed: seq<Chunk>, size: nat, overlap: nat)
    requires forall i :: 0 <= i < |packed| ==> ChunkOk(packed[i], i, size)
    ensures Built(packed, packed, size, overlap)
    ensures Built(Overlapped(packed, overlap), packed, size, overlap)
  {
    forall k | 0 <= k < |packed|
      ensures Overlapped(packed, overlap)[k].index == k
      ensures Extended(Overlapped(packed, overlap)[k], packed[k], size, overlap)
    {
      OverlapGuarantees(packed, size, overlap, k);
    }
    forall k | 0 <= k < |packed| ensures packed[k].index == k && Extended(packed[k], packed[k], size, overlap) {
      assert ChunkOk(packed[k], k, size);
      assert EndsWith(packed[k].content, packed[k].content);
    }
  }

  method RunOverlap(packed: seq<Chunk>, overlap: nat) returns (chunks: seq<Chunk>)
    requires Numbered(packed)
    ensures chunks == Overlapped(packed, overlap)
  {
    var cells := new Chunk[|packed|](i requires 0 <= i < |packed| => packed[i]);
    assert cells[..] == packed;
    ApplyOverlap(cells, overlap);
    chunks := cells[..];
  }

  /** `BuildChunks`: the chunks of a text, with the packing they come from. */
  method BuildChunks(content: string, chunkSize: nat, chunkOverlap: nat)
    returns (chunks: seq<Chunk>, ghost lines: seq<string>, ghost blocks: seq<TextBlock>, ghost plan: seq<Piece>)
    requires chunkSize > 0
    ensures LinesAre(content, lines) && Told(blocks, lines, |lines|)
    ensures forall j :: 0 <= j < |blocks| ==> HeadedBy(blocks, j, blocks[j].section)
    ensures BlocksOk(blocks) && Tiles(plan, blocks, chunkSize, |blocks|, 0) && AllInRange(plan, blocks)
    ensures forall i :: 0 <= i < |ChunksOf(plan, blocks)| ==> MadeFrom(ChunksOf(plan, blocks)[i], blocks)
    ensures ChunksInk(ChunksOf(plan, blocks)) == Ink(content)
    ensures Built(chunks, ChunksOf(plan, blocks), chunkSize, chunkOverlap)
    ensures chunks == if chunkOverlap == 0 then ChunksOf(plan, blocks) else Overlapped(ChunksOf(plan, blocks), chunkOverlap)
    ensures forall k :: 0 <= k < |chunks| ==> chunks[k].tokenCount == |chunks[k].content| <= chunkSize + chunkOverlap + 2
  {
    var parsed;
    parsed, lines := ParseBlocks(content);
    blocks := parsed;
    chunks, plan := PackBlocks(parsed, chunkSize);
    PackingIsFaithful(content, blocks, chunkSize, plan);
    OverlappedIsBuilt(chunks, chunkSize, chunkOverlap);
    PackedNumbered(content, blocks, chunkSize, plan);
    hide Tiles, ChunksOf, AllInRange, BlocksOk, Overlapped, LinesAre, Told, HeadedBy, MadeFrom;
    if chunkOverlap > 0 {
      chunks := RunOverlap(chunks, chunkOverlap);
    }
  }
}
