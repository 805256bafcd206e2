/** The semantic chunk list of a document: each section chunk followed by its children. */
module SemanticChunks {
  import opened Wrappers
  import opened Text
  import opened BlockTree
  import Sorting
  import opened SemanticRender
  import opened SemanticSections
  import opened SemanticPlan
  import opened SemanticChildren
  import opened SemanticKeys

  // ---------- roots and children ----------

  function RootsOf(blocks: seq<Stored>): seq<Stored> {
    if blocks == [] then []
    else RootsOf(blocks[..|blocks| - 1]) + if blocks[|blocks| - 1].parent.None? then [blocks[|blocks| - 1]] else []
  }

  function ChildrenWith(blocks: seq<Stored>, id: int): seq<Stored> {
    if blocks == [] then []
    else ChildrenWith(blocks[..|blocks| - 1], id) + if blocks[|blocks| - 1].parent == Some(id) then [blocks[|blocks| - 1]] else []
  }

  ghost predicate ByParent(kids: Kids, blocks: seq<Stored>) {
    forall id :: KidsOf(kids, id) == ChildrenWith(blocks, id)
  }

  lemma {:induction false} ByParentNext(kids: Kids, blocks: seq<Stored>, block: Stored)
    requires ByParent(kids, blocks)
    ensures ByParent(if block.parent.None? then kids
                     else kids[block.parent.value := KidsOf(kids, block.parent.value) + [block]], blocks + [block])
  {
    assert (blocks + [block])[..|blocks|] == blocks;
    var next := if block.parent.None? then kids else kids[block.parent.value := KidsOf(kids, block.parent.value) + [block]];
    forall id ensures KidsOf(next, id) == ChildrenWith(blocks + [block], id) {
      Regroup(ChildrenWith(blocks, id), [], []);
    }
  }

  /** The root blocks, and the children of every other block, each in the order of the list. */
  method SplitBlocks(blocks: seq<Stored>) returns (roots: seq<Stored>, kids: Kids)
    ensures roots == RootsOf(blocks) && ByParent(kids, blocks)
  {
    roots, kids := [], map[];
    for i := 0 to |blocks|
      invariant roots == RootsOf(blocks[..i]) && ByParent(kids, blocks[..i])
    {
      var block := blocks[i];
      assert blocks[..i + 1] == blocks[..i] + [block] && blocks[..i + 1][..i] == blocks[..i];
      ByParentNext(kids, blocks[..i], block);
      if block.parent.None? {
        roots := roots + [block];
      } else {
        kids := kids[block.parent.value := KidsOf(kids, block.parent.value) + [block]];
      }
    }
    assert blocks[..|blocks|] == blocks;
  }

  function InOrder(blocks: seq<Stored>): seq<Stored> {
    Sorting.Sort(blocks, (a: Stored, b: Stored) => a.row.order <= b.row.order)
  }

  // ---------- assembly ----------

  function SectionChunkOf(section: Section, kids: Kids, index: nat): Chunk {
    MakeChunk(index, SectionChunk, section.path, Unique(BlockKeys(section.blocks, kids)), TextOf(section.blocks, kids), None)
  }

  /** The section's chunk is at `at`, and everything behind it are its children. */
  ghost predicate SectionAt(chunks: seq<Chunk>, at: nat, plan: seq<Piece>, section: Section, kids: Kids,
                            config: Config)
    requires config.tableRowsPerChunk > 0
  {
    && at < |chunks|
    && chunks[at] == SectionChunkOf(section, kids, at)
    && ChildrenOf(chunks[at + 1..], section.blocks, kids, config, Context(section.path, at), plan)
  }

  /** The chunks of the sections, in order; a section without text gives none. */
  ghost predicate Built(chunks: seq<Chunk>, sections: seq<Section>, kids: Kids, config: Config)
    requires config.tableRowsPerChunk > 0
  {
    if sections == [] then chunks == []
    else
      var before, last := sections[..|sections| - 1], sections[|sections| - 1];
      if TextOf(last.blocks, kids) == "" then Built(chunks, before, kids, config)
      else exists at: nat, plan ::
             SectionAt(chunks, at, plan, last, kids, config) && Built(chunks[..at], before, kids, config)
  }

  lemma {:induction false} BuiltNext(chunks: seq<Chunk>, sections: seq<Section>, section: Section, kids: Kids,
                                     config: Config,
                                     children: seq<Chunk>, plan: seq<Piece>)
    requires config.tableRowsPerChunk > 0 && Built(chunks, sections, kids, config)
    requires TextOf(section.blocks, kids) != ""
    requires ChildrenOf(children, section.blocks, kids, config, Context(section.path, |chunks|), plan)
    ensures Built(chunks + [SectionChunkOf(section, kids, |chunks|)] + children, sections + [section], kids, config)
  {
    hide ChildrenOf, TextOf, SectionChunkOf;
    var all := chunks + [SectionChunkOf(section, kids, |chunks|)] + children;
    assert (sections + [section])[..|sections|] == sections;
    assert all[..|chunks|] == chunks && all[|chunks| + 1..] == children;
    assert SectionAt(all, |chunks|, plan, section, kids, config);
  }

  lemma {:induction false} BuiltSkip(chunks: seq<Chunk>, sections: seq<Section>, section: Section, kids: Kids,
                                     config: Config)
    requires config.tableRowsPerChunk > 0 && Built(chunks, sections, kids, config)
    requires TextOf(section.blocks, kids) == ""
    ensures Built(chunks, sections + [section], kids, config)
  {
    assert (sections + [section])[..|sections|] == sections;
  }

  method AddSection(chunks0: seq<Chunk>, section: Section, kids: Kids, config: Config, ghost sections: seq<Section>)
    returns (chunks: seq<Chunk>)
    requires config.tableRowsPerChunk > 0 && Built(chunks0, sections, kids, config)
    ensures Built(chunks, sections + [section], kids, config)
  {
    var content, keys := RenderBlocks(section.blocks, kids);
    TrimOfTrimmed(content);
    assert content == TextOf(section.blocks, kids);
    assert Trim(content) == content;
    var parentIndex := |chunks0|;
    var parent := MakeChunk(parentIndex, SectionChunk, section.path, keys, content, None);
    assert parent == SectionChunkOf(section, kids, parentIndex);
    hide *;
    if Trim(content) == "" {
      BuiltSkip(chunks0, sections, section, kids, config);
      return chunks0;
    }
    var children, plan := BuildSectionChildren(section.blocks, kids, config, Context(section.path, parentIndex));
    BuiltNext(chunks0, sections, section, kids, config, children, plan);
    chunks := chunks0 + [parent] + children;
  }

  method BuildAll(sections: seq<Section>, kids: Kids, config: Config) returns (chunks: seq<Chunk>)
    requires config.tableRowsPerChunk > 0
    ensures Built(chunks, sections, kids, config)
  {
    chunks := [];
    assert Built(chunks, sections[..0], kids, config);
    hide *;
    for sectionIndex := 0 to |sections|
      invariant Built(chunks, sections[..sectionIndex], kids, config)
    {
      assert sections[..sectionIndex + 1] == sections[..sectionIndex] + [sections[sectionIndex]];
      chunks := AddSection(chunks, sections[sectionIndex], kids, config, sections[..sectionIndex]);
    }
    assert sections[..|sections|] == sections;
  }

  // ---------- the parent and child structure ----------

  /** The content is trimmed, and the token count is its number of runes. */
  ghost predicate Made(chunk: Chunk) {
    Trimmed(chunk.content) && chunk.tokenCount == |chunk.content|
  }

  /** A section chunk has no parent; a child's parent is an earlier section chunk, with nothing but its children between. */
  ghost predicate Node(chunks: seq<Chunk>, i: nat)
    requires i < |chunks|
  {
    Made(chunks[i]) &&
    match chunks[i].parent
    case None => chunks[i].kind == SectionChunk
    case Some(p) =>
      && chunks[i].kind != SectionChunk
      && p < i && chunks[p].kind == SectionChunk && chunks[p].path == chunks[i].path
      && forall k :: p < k <= i ==> chunks[k].parent == Some(p)
  }

  ghost predicate Tree(chunks: seq<Chunk>) {
    forall i :: 0 <= i < |chunks| ==> Node(chunks, i)
  }

  ghost predicate IsChild(chunk: Chunk, context: Context) {
    chunk.parent == Some(context.parent) && chunk.path == context.path && chunk.kind != SectionChunk && Made(chunk)
  }

  ghost predicate AllChildren(chunks: seq<Chunk>, context: Context) {
    forall i :: 0 <= i < |chunks| ==> IsChild(chunks[i], context)
  }

  lemma {:induction false} RowChunksAreChildren(table: Stored, header: Stored, rows: seq<Stored>, kids: Kids,
                                                perChunk: nat,
                                                start: nat, context: Context)
    requires perChunk > 0
    ensures AllChildren(RowChunks(table, header, rows, kids, perChunk, start, context), context)
    decreases |rows| - start
  {
    hide RowChunks;
    if start >= |rows| {
      RowChunksEnd(table, header, rows, kids, perChunk, start, context);
    } else {
      RowChunksStep(table, header, rows, kids, perChunk, start, context);
      RowChunksAreChildren(table, header, rows, kids, perChunk, start + perChunk, context);
    }
  }

  lemma {:induction false} PiecesAreChildren(plan: seq<Piece>, blocks: seq<Stored>, kids: Kids, config: Config,
                                             context: Context)
    requires AllInBounds(plan, blocks) && config.tableRowsPerChunk > 0
    ensures AllChildren(ChunksOf(plan, blocks, kids, config, context), context)
  {
    if plan != [] {
      var last := plan[|plan| - 1];
      PiecesAreChildren(plan[..|plan| - 1], blocks, kids, config, context);
      OnePieceIsChildren(last, blocks, kids, config, context);
      hide PieceChunks, IsChild;
    }
  }

  lemma {:induction false} OnePieceIsChildren(piece: Piece, blocks: seq<Stored>, kids: Kids, config: Config,
                                              context: Context)
    requires InBounds(piece, blocks) && config.tableRowsPerChunk > 0
    ensures AllChildren(PieceChunks(piece, blocks, kids, config, context), context)
  {
    if piece.TableAt? {
      var rows := KidsOf(kids, blocks[piece.at].id);
      if rows != [] {
        RowChunksAreChildren(blocks[piece.at], rows[0], DataRows(rows), kids, config.tableRowsPerChunk, 0, context);
      }
    }
  }

  lemma {:induction false} SectionIsTree(chunks: seq<Chunk>, at: nat, context: Context)
    requires at < |chunks| && context.parent == at && Tree(chunks[..at])
    requires chunks[at].kind == SectionChunk && chunks[at].parent.None? && chunks[at].path == context.path && Made(chunks[at])
    requires AllChildren(chunks[at + 1..], context)
    ensures Tree(chunks)
    ensures forall i :: at < i < |chunks| ==> chunks[i].parent == Some(at)
  {
    forall i | at < i < |chunks| ensures IsChild(chunks[i], context) {
      assert chunks[i] == chunks[at + 1..][i - at - 1];
    }
    forall i | 0 <= i < at ensures Node(chunks, i) {
      assert Node(chunks[..at], i);
      assert forall k :: 0 <= k < at ==> chunks[..at][k] == chunks[k];
    }
  }

  /** Every child comes behind its section chunk, with only that section's children between. */
  lemma {:induction false} BuiltIsTree(chunks: seq<Chunk>, sections: seq<Section>, kids: Kids, config: Config)
    requires config.tableRowsPerChunk > 0 && Built(chunks, sections, kids, config)
    ensures Tree(chunks)
  {
    if sections != [] {
      var before, last := sections[..|sections| - 1], sections[|sections| - 1];
      if TextOf(last.blocks, kids) == "" {
        BuiltIsTree(chunks, before, kids, config);
      } else {
        var at: nat, plan :| SectionAt(chunks, at, plan, last, kids, config) && Built(chunks[..at], before, kids, config);
        BuiltIsTree(chunks[..at], before, kids, config);
        PiecesAreChildren(plan, last.blocks, kids, config, Context(last.path, at));
        hide Built, TextOf, ChunksOf, PlanOk, AllInBounds, Unique, BlockKeys, Tree, AllChildren;
        SectionIsTree(chunks, at, Context(last.path, at));
      }
    }
  }

  // ---------- the blocks each section and its children name ----------

  /** Some child of chunk p names v. */
  ghost predicate ChildNames(chunks: seq<Chunk>, p: nat, v: string) {
    exists i :: 0 <= i < |chunks| && chunks[i].parent == Some(p) && v in chunks[i].keys
  }

  lemma {:induction false} EarlierChildren(chunks: seq<Chunk>, at: nat, p: nat, v: string)
    requires p < at < |chunks| && chunks[at].parent.None?
    requires forall i :: at < i < |chunks| ==> chunks[i].parent == Some(at)
    ensures ChildNames(chunks, p, v) <==> ChildNames(chunks[..at], p, v)
  {
    if i :| 0 <= i < |chunks| && chunks[i].parent == Some(p) && v in chunks[i].keys {
      assert i < at && chunks[..at][i] == chunks[i];
    }
    if i :| 0 <= i < at && chunks[..at][i].parent == Some(p) && v in chunks[..at][i].keys {
      assert chunks[..at][i] == chunks[i];
    }
  }

  lemma {:induction false} LastChildren(chunks: seq<Chunk>, at: nat, v: string)
    requires at < |chunks| && chunks[at].parent.None? && Tree(chunks[..at])
    requires forall i :: at < i < |chunks| ==> chunks[i].parent == Some(at)
    ensures ChildNames(chunks, at, v) <==> InSome(chunks[at + 1..], v)
  {
    var tail := chunks[at + 1..];
    forall i | 0 <= i < at ensures chunks[i].parent != Some(at) {
      assert Node(chunks[..at], i);
    }
    if i :| 0 <= i < |chunks| && chunks[i].parent == Some(at) && v in chunks[i].keys {
      assert v in tail[i - at - 1].keys;
    }
    if i :| 0 <= i < |tail| && v in tail[i].keys {
      assert v in chunks[at + 1 + i].keys;
    }
  }

  /** For every section chunk: its children together name exactly the blocks it names. */
  lemma {:induction false} ChildrenNameTheirSection(chunks: seq<Chunk>, sections: seq<Section>, kids: Kids,
                                                    config: Config,
                                                    p: nat, v: string)
    requires config.tableRowsPerChunk > 0 && Built(chunks, sections, kids, config)
    requires p < |chunks| && chunks[p].parent.None? && v != ""
    ensures ChildNames(chunks, p, v) <==> v in chunks[p].keys
  {
    var before, last := sections[..|sections| - 1], sections[|sections| - 1];
    if TextOf(last.blocks, kids) == "" {
      ChildrenNameTheirSection(chunks, before, kids, config, p, v);
    } else {
      var at: nat, plan :| SectionAt(chunks, at, plan, last, kids, config) && Built(chunks[..at], before, kids, config);
      BuiltIsTree(chunks[..at], before, kids, config);
      PiecesAreChildren(plan, last.blocks, kids, config, Context(last.path, at));
      hide Built, TextOf, ChunksOf, PlanOk, AllInBounds, Unique, BlockKeys, Tree, AllChildren, ChildNames, InSome;
      SectionIsTree(chunks, at, Context(last.path, at));
      if p < at {
        EarlierChildren(chunks, at, p, v);
        ChildrenNameTheirSection(chunks[..at], before, kids, config, p, v);
      } else {
        assert p == at;
        LastChildren(chunks, at, v);
        ChildrenNameTheSection(chunks[at + 1..], last.blocks, kids, config, Context(last.path, at), plan, v);
      }
    }
  }

  // ---------- the whole list ----------

  predicate Numbered(chunks: seq<Chunk>, raw: seq<Chunk>) {
    |chunks| == |raw| && forall i :: 0 <= i < |raw| ==> chunks[i] == raw[i].(index := i)
  }

  method NumberChunks(raw: seq<Chunk>) returns (chunks: seq<Chunk>)
    ensures Numbered(chunks, raw)
  {
    chunks := raw;
    for index := 0 to |chunks|
      invariant |chunks| == |raw|
      invariant forall i :: 0 <= i < |raw| ==> chunks[i] == if i < index then raw[i].(index := i) else raw[i]
    {
      chunks := chunks[index := chunks[index].(index := index)];
    }
  }

  /** For every section chunk: its children together name exactly the blocks it names. */
  ghost predicate NamesAgree(chunks: seq<Chunk>) {
    forall p: nat, v :: p < |chunks| && chunks[p].parent.None? && v != "" ==> (ChildNames(chunks, p, v) <==> v in chunks[p].keys)
  }

  lemma {:induction false} BuiltNamesAgree(chunks: seq<Chunk>, sections: seq<Section>, kids: Kids, config: Config)
    requires config.tableRowsPerChunk > 0 && Built(chunks, sections, kids, config)
    ensures NamesAgree(chunks)
  {
    hide Built, ChildNames;
    forall p: nat, v | p < |chunks| && chunks[p].parent.None? && v != ""
      ensures ChildNames(chunks, p, v) <==> v in chunks[p].keys
    {
      ChildrenNameTheirSection(chunks, sections, kids, config, p, v);
    }
  }

  /** Numbering changes nothing but the numbers. */
  lemma {:induction false} NumberedTree(chunks: seq<Chunk>, raw: seq<Chunk>)
    requires Numbered(chunks, raw)
    ensures Tree(raw) ==> Tree(chunks)
    ensures NamesAgree(raw) ==> NamesAgree(chunks)
  {
    if Tree(raw) {
      forall i | 0 <= i < |chunks| ensures Node(chunks, i) {
        assert Node(raw, i);
      }
    }
    hide Tree, Node;
    forall p: nat, v ensures ChildNames(chunks, p, v) <==> ChildNames(raw, p, v) {
      SameChildren(chunks, raw, p, v);
      SameChildren(raw, chunks, p, v);
    }
  }

  lemma {:induction false} SameChildren(a: seq<Chunk>, b: seq<Chunk>, p: nat, v: string)
    requires |a| == |b| && forall i :: 0 <= i < |a| ==> a[i].parent == b[i].parent && a[i].keys == b[i].keys
    ensures ChildNames(a, p, v) ==> ChildNames(b, p, v)
  {
    if i :| 0 <= i < |a| && a[i].parent == Some(p) && v in a[i].keys {
      assert b[i].parent == Some(p) && v in b[i].keys;
    }
  }
}
