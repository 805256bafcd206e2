/** The semantic chunk list of a stored document, and what it promises. */
module SemanticBuild {
  import opened BlockTree
  import opened SemanticRender
  import opened SemanticSections
  import opened SemanticPlan
  import opened SemanticChunks
  import opened SemanticInk
  import opened SemanticTexts

  /** `ParseChunkStrategyConfig`, for the fields that matter here. */
  predicate ValidConfig(config: Config) {
    && 200 <= config.maxChildChars <= 12000
    && 1 <= config.tableRowsPerChunk <= 200
    && 1 <= config.contextBlocks <= 10
  }

  datatype Outcome = Chunks(chunks: seq<Chunk>) | InvalidInput

  lemma ConfigRows(config: Config)
    requires ValidConfig(config)
    ensures config.tableRowsPerChunk > 0
  {
  }

  /**
   * `BuildSemanticChunks`. The list is a tree of section chunks and their children; the children name the blocks of their
   * section; and the text of every block is in the chunk of its section and in a child that names it.
   */
  method BuildSemanticChunks(blocks: seq<Stored>, config: Config)
    returns (r: Outcome, ghost sections: seq<Section>, ghost kids: Kids, ghost raw: seq<Chunk>)
    ensures r.InvalidInput? <==> blocks == [] || !ValidConfig(config)
    ensures r.Chunks? ==>
              && ByParent(kids, blocks)
              && Partition(sections, InOrder(RootsOf(blocks)))
              && Built(raw, sections, kids, config) && Numbered(r.chunks, raw)
    ensures r.Chunks? ==> Tree(r.chunks) && NamesAgree(r.chunks)
    ensures r.Chunks? ==> BlocksShown(r.chunks, blocks) && CellsShown(r.chunks, blocks) && CommandsShown(r.chunks, blocks)
    ensures r.Chunks? ==> RowlessShown(r.chunks, blocks)
    ensures r.Chunks? ==> KindInk(r.chunks, SectionChunk) == RootsInk(sections, kids)
    ensures r.Chunks? ==> KindInk(r.chunks, GroupChunk) == PlainInk(sections, kids)
  {
    sections, kids, raw := [], map[], [];
    if blocks == [] || !ValidConfig(config) {
      return InvalidInput, sections, kids, raw;
    }
    var roots, byParent := SplitBlocks(blocks);
    kids := byParent;
    var groups := GroupChunkSections(InOrder(roots));
    sections := groups;
    var built: seq<Chunk> := BuildAll(groups, byParent, config);
    raw := built;
    hide *;
    var chunks := NumberChunks(built);
    ConfigRows(config);
    BuiltIsTree(raw, sections, kids, config);
    BuiltNamesAgree(raw, sections, kids, config);
    NumberedTree(chunks, raw);
    ListShows(blocks, raw, sections, kids, config);
    NumberedShows(blocks, chunks, raw);
    TextsAreKept(chunks, raw, sections, kids, config);
    r := Chunks(chunks);
  }
}
