# Verified model of the operations platform

A Dafny model of the deterministic core of the platform's backend, with proofs of what that core promises. Everything
below HTTP and SQL that decides something is here; the rest is a parameter or left out.

| area | files |
|---|---|
| Topology search, shared dependencies, scoring and ranking of correlated events | `Topology.dfy`, `TopologySearch.dfy`, `TopologyReach.dfy`, `TopologyKeys.dfy`, `CommonDependency.dfy`, `TopologyComponent.dfy`, `Ranking.dfy`, `EventScore.dfy` |
| Batch connection tests: job record, step relation, safety and termination of all runs | `BatchJob.dfy`, `BatchRun.dfy`, `BatchSafety.dfy`, `BatchOrigin.dfy` |
| Document block trees: numbering, flattening, storing, restoring | `BlockTree.dfy`, `BlockFlattening.dfy`, `BlockStore.dfy`, `BlockRoundTrip.dfy` |
| Plain chunker | `Chunker.dfy`, `ChunkPacking.dfy`, `ChunkOverlap.dfy` |
| Markdown parser | `MarkdownLines.dfy`, `MarkdownSections.dfy`, `MarkdownParser.dfy`, `MarkdownFacts.dfy`, `MarkdownText.dfy`, `MarkdownDocument.dfy` |
| Semantic chunker | `SemanticRender.dfy`, `SemanticSections.dfy`, `SemanticPlan.dfy`, `SemanticChildren.dfy`, `SemanticKeys.dfy`, `SemanticSizes.dfy`, `SemanticChunks.dfy`, `SemanticOrder.dfy`, `SemanticInk.dfy`, `SemanticTexts.dfy`, `SemanticBuild.dfy` |
| Log preprocessing and the pod log limiter | `LogPreprocess.dfy`, `LogSummary.dfy`, `LogLimit.dfy` |
| Embedding index build and fingerprint | `EmbeddingStore.dfy`, `EmbeddingBuild.dfy`, `EmbeddingRows.dfy`, `EmbeddingRuns.dfy`, `EmbeddingGap.dfy`, `Fingerprint.dfy` |
| SSH host keys | `HostKey.dfy`, `HostKeyOverlap.dfy` |
| Host import previews | `ImportRows.dfy`, `ImportStore.dfy` |
| Shared: strings and their parts, numerals, sorting, picking, counting, fates of writes | `Text.dfy`, `TextParts.dfy`, `Decimal.dfy`, `Sorting.dfy`, `Picking.dfy`, `Counting.dfy`, `Wrappers.dfy`, `Writes.dfy` |

`dafny verify dfyconfig.toml` checks the whole project.

How the source's terms are rendered:

- Confidences and scores are exact reals; rounding is `floor(1000 x + 0.5) / 1000`.
- Strings are sequences of runes with Go's white space, except in `LogLimit`, where a char stands for one byte.
- The batch run is a step relation: any interleaving of dispatcher, workers, test answers and the firing context is a
  sequence of enabled steps, and the lemmas of `BatchSafety` speak of all such sequences.
- Host keys and import previews are classes whose methods are tied to step functions; the lemmas about runs speak of all
  sequences of calls.
- Hashes (SHA-1 of the duplicate key, SHA-256 of the fingerprint text) are taken to be injective; content hashes are texts
  without line breaks.
- The chunk table gives out every id once and deletes the vectors of a deleted chunk; new chunks are listed behind the kept
  ones, which matters to no property, since fingerprints sort by id.
- Regular expressions, case folding, clocks, random tokens, database answers, remote services and the number of
  redactions are parameters.

Where the code departs from what its names suggest, the model follows the code and a lemma says so:

- The set of visited nodes trims its keys, so a key with white space around it can be visited twice and can hide its
  trimmed form (`TopologyReach.UncleanIsRevisited`, `TopologyReach.TrimmedNeighbourIsMissed`); `TopologyKeys.ExactKeys`
  and `TopologyKeys.NoRepeatKeys` give the exact conditions on the keys.
- A shared dependency whose node key is empty is taken for none, and when it ties with another the score depends on map
  order (`CommonDependency.SignalKept` and `CommonDependency.OrderIsNothing` give the exact conditions).
- Edges entered by hand have both keys trimmed and are refused without one
  (backend/internal/topology/service.go:3792-3798), so the two points above concern only keys that reach the store another
  way.
- The gate for candidates without evidence cuts sums of 0.7 and more to 0.69, below sums between 0.69 and 0.7, so stronger
  findings can score less (`Ranking.StrongerPathScoresLess`; `Ranking.StrongerScoresMore` gives the exact condition).
- A table without rows adds no text to its section; where the section has no other, its text is in no chunk
  (`SemanticTexts.LostTable`).
- Import keys join their parts with NUL, so a NUL in an environment can make different hosts twins
  (`ImportRows.NulKeysCollide`; `ImportRows.KeyTellsApart` says when keys tell hosts apart).
- Section paths `[]` and `[""]` share a section (`SemanticSections.SameKey`).
- The running size of a semantic group is not reset by tables or code and ignores pulled-in blocks
  (`SemanticChildren.BuildSectionChildren` states the sizes as they are).
- An embedding index can stay in the building state for good: when the last update, or the mark of a failed build, is not
  stored, or a stored claim is reported as failed (`EmbeddingRuns.EndsBuilding` and `EmbeddingRuns.BuildingMeansStuck` give
  the exact conditions).
- The last update of a build does not compare fingerprints. When the chunks are replaced after the last batch and somebody
  looks, the index is reported ready and found unchanged, but its vectors went with the old chunks
  (`EmbeddingGap.MisreportedIndex`; `EmbeddingRuns.CompleteMeansUndisturbed` gives the exact condition).
- What a verification notes is written unconditionally. So two overlapping first uses of different keys are both allowed,
  and a late one can undo a confirmation or lift the block of a mismatch (`HostKeyOverlap.TwoFirstUses`,
  `HostKeyOverlap.LateFirstUse`, `HostKeyOverlap.LateFirstUseUnblocks`). The promises remain in runs in which every late
  first use finds the host free for its key (`HostKeyOverlap.FreeIsSafe` says what that means for callers).
- A blank line counts as a table separator (`MarkdownLines.SeparatorRunes`), and tables and an unclosed fence are not held
  to the block limit while parsing (`MarkdownDocument.DocumentSays`).

## Model

| member | source | states |
|---|---|---|
| TopologySearch.BestTopologyPath | backend/internal/correlation/service.go:361-421 | The queue search ends on every graph; it succeeds exactly when some admissible walk of 1 to `maxDepth` edges leads from one node set to the other, and then returns a real path of the graph, with the kinds and the product of the confidences of its edges, and with the greatest path score of all such walks; otherwise it returns the empty path |
| TopologySearch.BuildAdjacency | backend/internal/correlation/service.go:369-376 | Every edge can be followed from both of its ends |
| TopologySearch.Expand | backend/internal/correlation/service.go:406-418 | One queue entry grows by exactly its unvisited neighbours, in order |
| TopologySearch.TryRetire | backend/internal/correlation/service.go:383-405 | An entry leaves the queue without growing only when it has arrived or used up its depth; the measure drops and no candidate better than the best is lost |
| TopologySearch.ExpansionShrinks | backend/internal/correlation/service.go:383-419 | Replacing an entry by its longer successors lowers the weight of the queue: the reason the search ends on cycles, loops and parallel edges |
| TopologySearch.ConfidenceProduct | backend/internal/correlation/service.go:406-418 | The confidence of a path is the product of those of its edges, however the path was grown |
| TopologySearch.BestIsReal | backend/internal/correlation/service.go:383-421 | Any best path follows edges of the graph from one node set to the other, node by node, with their kinds and their confidences |
| TopologyReach.SolvableIffLinked | backend/internal/correlation/service.go:361-421 | For disjoint sets the search succeeds exactly when an undirected walk of at most `maxDepth` edges links them, repeated nodes allowed, provided no key is another key with white space around it |
| TopologyReach.ShallowDepths | backend/internal/correlation/service.go:687-726 | At depth one the search agrees with the direct check, at depth two with direct or two-hop |
| TopologyReach.DirectlyConnected | backend/internal/correlation/service.go:687-701 | True exactly when one edge, in either direction, joins the sets |
| TopologyReach.TwoHopConnected | backend/internal/correlation/service.go:703-726 | True exactly when two edges, each in either direction, join the sets |
| TopologyReach.CleanMeansSimple | backend/internal/correlation/service.go:406-410 | On keys without white space around them the admissible walks are exactly those that repeat no node |
| TopologyReach.RevisitIsUnclean | backend/internal/correlation/service.go:805-814 | A node is revisited only if its key is blank or has white space around it |
| TopologyKeys.ExactKeys | backend/internal/correlation/service.go:805-814 | Over a set of node keys, disjoint ends given, the search succeeds on every graph exactly when a walk of at most `maxDepth` edges links the ends, precisely if no key of the set is another one with white space around it |
| TopologyKeys.NoRepeatKeys | backend/internal/correlation/service.go:405-411 | The visited set keeps every walk over a set of keys from repeating a node precisely if all of them are free of outer white space and not blank |
| TopologyReach.UncleanIsRevisited | backend/internal/correlation/service.go:805-814 | For every such key there is a graph whose search considers a walk that repeats it |
| TopologyReach.TrimmedNeighbourIsMissed | backend/internal/correlation/service.go:805-814 | A neighbour whose key is the trimmed form of the start key is never found, though an edge joins them |
| Topology.PathScore | backend/internal/correlation/service.go:423-450 | The score of a path is that of its strongest relation: some relation of the path is at least as strong as every other, and the score is its base times the confidence times 1, 0.72 or 0.55 for one, two or more edges, cut to 0.2 when all edges only observe, rounded to thousandths; the empty path scores 0 |
| Topology.ScoreMeaning | backend/internal/correlation/service.go:423-450 | The same of the score as a value, so of every score the search compares |
| Topology.RelationTable | backend/internal/correlation/service.go:624-669 | The base of every relation, and exactly which relations carry a failure on |
| Topology.RoundNearest | backend/internal/correlation/service.go:833-835 | Rounding moves a value by half a thousandth at most |
| Topology.ScoreRange | backend/internal/correlation/service.go:423-450 | A path score lies in [0, 0.95], and in [0, 0.2] for a path of observations |
| Topology.EdgeConfidence | backend/internal/correlation/service.go:671-685 | An edge confidence lies in [0, 1] whatever is stored |
| Topology.ConfidenceChoice | backend/internal/correlation/service.go:671-685 | The resolved confidence comes before the stored one, and without any an edge is certain; what is out of range is cut to 0 or 1 |
| Topology.RoundMonotone | backend/internal/correlation/service.go:833-835 | Rounding to thousandths keeps the order of scores |
| TopologyComponent.FindTopology | backend/internal/correlation/service.go:317-359 | Same node, or the best path signal of depth three and the shared-dependency signal, each with its meaning |
| TopologyComponent.FindingIsSane | backend/internal/correlation/service.go:317-359 | The path signal lies in [0, 0.95], the shared one in [0, 0.65], the topology component in [0, 1] |
| CommonDependency.DependencyTargets | backend/internal/correlation/service.go:502-516 | For every node, the best confidence of a propagating edge to it from the set; nodes without a positive one are left out |
| CommonDependency.BestIsBest | backend/internal/correlation/service.go:502-516 | That best confidence is attained by an edge and passed by none |
| CommonDependency.BestMeeting | backend/internal/correlation/service.go:452-516 | The greatest minimum edge by edge: no two edges that lead from the two sets to one node, by relations that carry a failure on, have a lesser confidence above it, two have just it, and the signal is its rounded 65 % |
| CommonDependency.CommonDependencySignal | backend/internal/correlation/service.go:452-473 | The loop is a scan over the dependencies of the left set, each once, in some order; its score is that of what the scan finds and lies in [0, 0.65] |
| CommonDependency.ScanFinds | backend/internal/correlation/service.go:458-466 | In whatever order the map is listed, the scan ends with the greatest minimum of the two confidences over all nodes, on a node that reaches it |
| CommonDependency.EveryOutcomeIsReached | backend/internal/correlation/service.go:458-466 | Every node that reaches the greatest minimum is what the scan of some order ends on |
| CommonDependency.SignalKept | backend/internal/correlation/service.go:458-472 | Every order of the scan gives the rounded 65 % of the greatest minimum exactly when no node of empty name reaches a greatest minimum whose score is not 0 |
| CommonDependency.OrderIsNothing | backend/internal/correlation/service.go:458-472 | All orders of the scan give the same score exactly when no node of empty name ties with another one for a greatest minimum whose score is not 0 |
| CommonDependency.TiedDependencies | backend/internal/correlation/service.go:458-472 | A graph on which two orders score differently: two services that depend on a node without a name and on one with a name |
| CommonDependency.NamelessDependency | backend/internal/correlation/service.go:465-468 | A graph on which every order scores 0 though the greatest minimum is 1 and its score positive: two services that depend on a node without a name |
| CommonDependency.MaxSymmetric | backend/internal/correlation/service.go:452-473 | The greatest minimum is unique and the same for the two sets exchanged |
| CommonDependency.SignalRange | backend/internal/correlation/service.go:469-470 | The signal lies in [0, 0.65] |
| Ranking.CompareIdentifiers | backend/internal/correlation/service.go:270-297 | The identifier score is the share of comparable identifiers that match |
| Ranking.SemanticIsJaccard | backend/internal/correlation/service.go:518-536 | The semantic score is the number of shared tokens over the number of all tokens, in [0, 1], and 1 only for equal token sets |
| Ranking.TopologyComponentIs | backend/internal/correlation/service.go:317-359 | The topology component is 1 for the same node, else the stronger of the two signals, 0.05 when both are 0, and 0 without a topology |
| Ranking.DetailRange | backend/internal/correlation/service.go:548-551 | A component lies in [0, 1], its weighted value between 0 and its weight, in whole thousandths |
| Ranking.DetailsInRange | backend/internal/correlation/service.go:239-253 | All five components stay in range and their weighted sum lies in [0, 1] |
| Ranking.ScoreTotal | backend/internal/correlation/service.go:249-257 | The loop adds up the five weighted components and applies the evidence gate |
| Ranking.EvidenceGate | backend/internal/correlation/service.go:253-257 | For findings in their ranges a score lies in [0, 1]; without evidence it stays below 0.7 and is never of high confidence; otherwise rounding leaves the sum as it is |
| Ranking.StrongerScoresMore | backend/internal/correlation/service.go:253-257 | Findings that are no weaker in any component score no less exactly when it is not so that there is no evidence, the smaller sum lies between 0.69 and 0.7, and the larger is 0.7 or more |
| Ranking.StrongerPathScoresLess | backend/internal/correlation/service.go:253-257 | Two comparisons without evidence that differ in the path only: the stronger path scores 0.69, the weaker 0.692 |
| EventScore.ScoreCandidate | backend/internal/correlation/service.go:239-268 | For every two events and every graph the five components are those of the events: agreeing over given identifiers of the six, the step of the time between them, the topology, shared over all tokens, and 0, 0.6 or 1 for no evidence, own evidence or evidence shared with the target; the score lies in [0, 1]; a candidate without evidence stays below 0.7 and is never of high confidence, any other score is the exact sum of the weighted components; high means 0.8 and more, low below 0.5 |
| EventScore.ComparedIsSane | backend/internal/correlation/service.go:239-257 | Whatever comparing two events finds lies in the ranges the gate relies on |
| EventScore.ComponentsOfEvents | backend/internal/correlation/service.go:239-323 | Which identifiers, times, tokens and evidence make up the components, whatever the comparison finds |
| EventScore.MapOrderIsNothing | backend/internal/correlation/service.go:239-257 | The topology component of two events is the same in whatever order a map is listed exactly when no nameless dependency ties for a best that counts, or the best path is at least as strong, or the tie is worth just the 0.05 of no signal; then all components and the score are the same too |
| Ranking.Rank | backend/internal/correlation/service.go:158-180 | The list is the sorted list of all events but the target, cut at the limit |
| Ranking.RankedIsBest | backend/internal/correlation/service.go:169-180 | The list is a sorted rearrangement: a better score first, at the same score the earlier event, at the same time the smaller id; and nothing cut off ranks before anything kept |
| Ranking.RankedAreEvents | backend/internal/correlation/service.go:158-180 | Whatever is listed is an event other than the target, and without a cut every such event is listed |
| Ranking.ArrivalOrderIsNothing | backend/internal/correlation/service.go:158-180 | With distinct event ids the ranked list does not depend on the order in which the events arrive |
| Sorting.OneSorted | backend/internal/correlation/service.go:169-177 | Without ties there is only one sorted rearrangement, so stability does not matter |
| BatchJob.JobRecord.FinishItem | backend/internal/linuxhost/batch_connection.go:227-244 | Writing one result changes the counters, the progress and that item exactly as the value-level step says |
| BatchJob.JobRecord.FinishJob | backend/internal/linuxhost/batch_connection.go:246-256 | Ending the job sets status, progress and end time |
| BatchJob.WithItemConsistent | backend/internal/linuxhost/batch_connection.go:227-244 | Writing a result keeps completed = success + failed + cancelled = number of items not pending <= total, leaves finished items alone and never lowers the progress |
| BatchRun.OutcomeTruth | backend/internal/linuxhost/batch_connection.go:195-225 | When a test counts as cancelled, successful or failed; a failure keeps a known code and turns any other into UNKNOWN, with the fixed message of the code; the measured fields are those of the result |
| BatchSafety.StepInv | backend/internal/linuxhost/batch_connection.go:158-244 | Every step of dispatcher, workers and context keeps the invariant: each target is in exactly one place, and the counters are true |
| BatchSafety.RunInv | backend/internal/linuxhost/batch_connection.go:158-256 | The invariant holds in every state of every run |
| BatchSafety.NoDeadlock | backend/internal/linuxhost/batch_connection.go:158-193 | Until `done` is closed some step other than the firing of the context can be taken, whatever the tests answer |
| BatchSafety.RunIsBounded | backend/internal/linuxhost/batch_connection.go:158-193 | A run has at most five steps a target, one a worker and seven more |
| BatchSafety.RunForward | backend/internal/linuxhost/batch_connection.go:227-256 | Along every run an item leaves pending at most once and keeps its result, and the progress never drops |
| BatchSafety.TestsBounded | backend/internal/linuxhost/batch_connection.go:158-186 | At most min(concurrency, targets) tests are under way at any moment, each on a target of its own |
| BatchSafety.EndedIsFinal | backend/internal/linuxhost/batch_connection.go:188-193 | The end is recorded only with every item finished, progress 100 and status cancelled whenever an item was cancelled; the recorder has been given every recordable result exactly once |
| BatchSafety.RunEnds | backend/internal/linuxhost/batch_connection.go:246-288 | A run that can go no further has closed `done` with a final job, and once the end is recorded no later state shows another job |
| BatchOrigin.ResultsHaveOrigins | backend/internal/linuxhost/batch_connection.go:195-225 | Along every run each result, written or in the hands of a worker, comes from one of three: a target given up after the context fired, the target's own error, or the return of a test of this target taken earlier in the run |
| BatchOrigin.ItemOrigin | backend/internal/linuxhost/batch_connection.go:195-225 | Whoever reads the job finds such results only, and on the other items nothing but the host; a failed item with its target's code has a target that could not be resolved, a tested one a target that could; and a target that could not be resolved is never under test |
| BatchOrigin.StatusTruth | backend/internal/linuxhost/batch_connection.go:188-256 | In every run a job ends cancelled exactly when one of its items is, or when the context had fired by the time the workers were joined |
| BlockTree.BlockIdInjective | backend/internal/document/ast.go:82-84 | Different numbers give different block ids, also beyond six digits |
| BlockTree.AssignBlockIdentity | backend/internal/document/registry.go:156-163 | The walk with its shared counter computes the numbering |
| BlockTree.CountBlocks | backend/internal/document/registry.go:186-192 | The loop counts every block of the forest once |
| BlockTree.AssignedNumbers | backend/internal/document/registry.go:156-163 | The k-th block in document order gets number k + 1 and the id made from it |
| BlockTree.AssignedShape | backend/internal/document/registry.go:156-163 | Numbering changes nothing but order and id and uses one number a block |
| BlockTree.FlattenASTBlocks | backend/internal/document/version_service.go:127-149 | The rows of the forest, sorted stably by order |
| BlockTree.FlattenDocumentBlocks | backend/internal/document/schema.go:333-341 | The flat list, sorted at every level of the recursion |
| BlockTree.FlatteningsAgree | backend/internal/document/version_service.go:127-149 | On a numbered forest both flattenings list the same blocks in document order, and neither sort moves anything |
| BlockFlattening.SortsAgree | backend/internal/document/schema.go:333-341 | On every forest, numbered or not, sorting at each level of the recursion gives the list of sorting once at the end, block by block and row by row |
| BlockFlattening.OneStableSort | backend/internal/document/schema.go:339 | A list sorted by order is determined by the order of its ties, so there is one stable sort only |
| BlockStore.RecordBlocks | backend/internal/repository/document_repository.go:148-163 | Rows are stored under ids resolved from parent keys; this succeeds exactly when every parent comes before its children |
| BlockStore.BuildBlocks | backend/internal/document/version_service.go:159-173 | The recursion over the parent map rebuilds the blocks below a list of rows |
| BlockStore.RestoreASTBlocks | backend/internal/document/version_service.go:151-176 | Grouping by parent in one pass and rebuilding from the roots computes the restored forest |
| BlockRoundTrip.RoundTrip | backend/internal/document/version_service.go:127-176 | Any forest with rising orders and distinct ids is stored without an error and restored exactly, whatever distinct ids the database gives out |
| BlockRoundTrip.NumberedRoundTrip | backend/internal/document/version_service.go:127-176 | Numbering any forest, flattening, storing and restoring it gives the numbered forest back |
| BlockRoundTrip.TreeParentsFirst | backend/internal/document/version_service.go:129-148 | The flattened rows always list parents before children |
| Chunker.ParseBlocks | backend/internal/document/chunker.go:91-126 | The blocks are what the lines of the content say: every heading line on its own, and the plain lines between two others as one paragraph, each line trimmed; every block carries the text of the last heading up to it; no rune other than white space is lost, doubled or moved |
| Chunker.ParagraphGrows | backend/internal/document/chunker.go:113-121 | A further line never turns a paragraph into a heading |
| Chunker.LinesFound | backend/internal/document/chunker.go:92-94 | The lines are the parts of the content between line feeds, carriage returns, or both together |
| Chunker.SectionIsHeading | backend/internal/document/chunker.go:110-113 | The section of a block is the text of the last heading up to it, or empty without one |
| ChunkPacking.PackBlocks | backend/internal/document/chunker.go:15-71 | The chunks are those of a gapless tiling of the blocks: runs of one section as long as the size allows, and slices of `chunkSize` runes of oversized blocks |
| ChunkPacking.SplitLong | backend/internal/document/chunker.go:37-52 | The inner loop cuts an oversized block from its first to its last rune |
| ChunkPacking.MakeRoom | backend/internal/document/chunker.go:55-64 | A chunk is closed only before a block that would overflow it or belongs to another section |
| ChunkPacking.TilesKeepInk | backend/internal/document/chunker.go:32-71 | The chunks of a tiling hold exactly the runes, white space aside, of the part it covers, in order |
| ChunkPacking.TilesChunksOk | backend/internal/document/chunker.go:32-71 | Every chunk is trimmed, not empty, no longer than the size, counts its own runes and has its place as its index |
| ChunkPacking.TilesMake | backend/internal/document/chunker.go:32-71 | Every chunk is consecutive blocks with blank lines between them, or a trimmed stretch of one block, under the section of all of them |
| ChunkPacking.PackingIsFaithful | backend/internal/document/chunker.go:15-71 | The packed chunks together hold the text of the input and nothing else, each within the limits |
| ChunkOverlap.ApplyOverlap | backend/internal/document/chunker.go:75-87 | The in-place pass computes the overlapped chunks |
| ChunkOverlap.TailIsLongest | backend/internal/document/chunker.go:173-179 | The tail is the longest end of the trimmed text without outer white space that has at most the given number of runes |
| ChunkOverlap.OverlapGuarantees | backend/internal/document/chunker.go:75-87 | After the pass every chunk is its packed text, or the tail of the chunk before it, a blank line, and its packed text; it starts with that tail, is at most size + overlap + 2 runes long and counts them |
| ChunkOverlap.BuildChunks | backend/internal/document/chunker.go:15-89 | The whole chunker: the blocks are what the lines of the content say, every packed chunk is some of them or a stretch of one under their section, no text is lost, doubled or moved, and bounds, counts and indexes of the chunks returned hold |
| MarkdownSections.UpdateSection | backend/internal/document/parser.go:602-613 | The new path keeps the entries above the level, pads with empty names and ends with the title |
| MarkdownSections.StackIsLookup | backend/internal/document/parser.go:602-613 | The path kept heading by heading is the lookup over all headings: entry k is the last heading of level k or above, if it has level k, else empty |
| MarkdownSections.PathMeans | backend/internal/document/parser.go:602-613 | The path under some headings is as long as the level of the last one, which it ends with; each level is called by the last heading no deeper than it, if that is of just this level |
| MarkdownLines.SeparatorRunes | backend/internal/document/parser.go:217-221 | A separator line is exactly one made of bars, colons, dashes and white space; a blank line is one |
| MarkdownLines.TableProgress | backend/internal/document/parser.go:139-156 | The table loop always passes its first line, so the outer loop makes progress although the index is set back |
| MarkdownParser.ReadTable | backend/internal/document/parser.go:141-154 | The table loop reads the rows up to the first line without a bar and skips separator lines |
| MarkdownParser.ParseLines | backend/internal/document/parser.go:109-187 | The loop over the lines computes the blocks of the segments of the document, its title and its failures |
| MarkdownText.LineReads | backend/internal/document/parser.go:190-215 | What the parser takes a trimmed line for is what the line says: kind, level and text by the marks it starts with |
| MarkdownText.WrittenFrom | backend/internal/document/parser.go:109-187 | The segments from any line on give the blocks the lines from there say |
| MarkdownDocument.NewlinesReplaced | backend/internal/document/parser.go:103 | Every CRLF becomes a line feed and nothing else changes |
| MarkdownDocument.WrittenHolds | backend/internal/document/parser.go:101-188 | Lines that say some blocks hold the runes of these blocks, in order, behind their marks |
| MarkdownDocument.DocumentSays | backend/internal/document/parser.go:101-188 | Blocks, unclosed fence, block limit and empty document, each exactly as the lines say |
| MarkdownDocument.ParseMarkdown | backend/internal/document/parser.go:101-188 | The blocks are what the lines of the content say, one after the other with blank lines between: a paragraph its trimmed line, a heading, quote or list line what stands behind its mark, a code block the lines between its fences, a table the cells of its lines with a bar but the separators; the content holds their runes in order behind their marks, and no others; they are numbered and stand under the paths the headings give, and the title is the first heading; the parse fails exactly when there is no block, or a block that is no table is one too many |
| MarkdownFacts.SectionsOfDocument | backend/internal/document/parser.go:101-188 | Blocks are numbered from 1 and each stands under the section path the headings up to it give; only the code block of a fence never closed has none |
| MarkdownFacts.TitleOfDocument | backend/internal/document/parser.go:168-172 | The title of a parsed document is the one given if it is of its own, else the first heading of the document other than the requested title, else the requested title |
| SemanticRender.UniqueStrings | backend/internal/document/semantic_chunker.go:343-356 | The loop computes the values that are not empty, each at its first place |
| SemanticRender.UniqueFacts | backend/internal/document/semantic_chunker.go:343-356 | Exactly the values that are not empty, none twice |
| SemanticOrder.UniquePlaced | backend/internal/document/semantic_chunker.go:343-356 | The values stand in the order of their first places |
| SemanticRender.RenderBlocks | backend/internal/document/semantic_chunker.go:208-231 | The loop computes text and keys of the blocks |
| SemanticInk.TextInk | backend/internal/document/semantic_chunker.go:208-231 | The text of some blocks holds, white space aside, exactly the runes of those blocks in order: of each its stored text, behind as many marks as its level for a heading, and for a table its cells with bars between those of a row |
| SemanticRender.RenderTableRow | backend/internal/document/semantic_chunker.go:233-240 | A row is its trimmed cells with bars between them, with their keys |
| SemanticRender.ChunkPages | backend/internal/document/semantic_chunker.go:366-386 | The first and last page are the least and greatest page of the blocks that have one |
| SemanticSections.GroupChunkSections | backend/internal/document/semantic_chunker.go:90-108 | The sections are a stable partition of the root blocks by key, in the order of first blocks, each called by the path of its first |
| SemanticOrder.SectionsKeepOrder | backend/internal/document/semantic_chunker.go:90-108 | Sections come in the order of their first blocks, and each holds the roots of its key, all of them, in their order |
| SemanticSections.SameKey | backend/internal/document/semantic_chunker.go:98 | Two paths free of NUL share a section exactly when they are equal or both are the empty path or the path of one empty name |
| SemanticSections.EmptyPathsCollide | backend/internal/document/semantic_chunker.go:98 | The empty path and the path of one empty name are filed together |
| SemanticPlan.GroupsArePlainBlocks | backend/internal/document/semantic_chunker.go:110-168 | The groups one after the other are exactly the blocks of the section that are neither table nor code, in order |
| SemanticPlan.WarningKeepsNext | backend/internal/document/semantic_chunker.go:157-163 | A block that a warning pulls in is in a group, and every group that holds it holds the warning before it |
| SemanticChildren.BuildSectionChildren | backend/internal/document/semantic_chunker.go:110-168 | The children are those of a plan that covers the section block by block: one chunk for a group, one for a code block, those of the table for a table; a group is split only where the running size, which tables, code and pulled-in blocks do not change, would overflow |
| SemanticChildren.BuildTableChunks | backend/internal/document/semantic_chunker.go:170-206 | The chunks of a table: its data rows cut every `rowsPerChunk`, every chunk with the header |
| SemanticChildren.RowChunkAt | backend/internal/document/semantic_chunker.go:186-204 | Chunk j holds exactly the data rows from j * rowsPerChunk on |
| SemanticChildren.RowChunkCount | backend/internal/document/semantic_chunker.go:186-204 | There are as many chunks as the data rows need, and no more |
| SemanticInk.TableInk | backend/internal/document/semantic_chunker.go:186-204 | A table chunk holds, white space aside, the cells of the header and of its data rows, each row behind its number in the table |
| SemanticTexts.RowIsNumbered | backend/internal/document/semantic_chunker.go:186-204 | Row r of a table, other than the header, stands as line "Row r" in the chunk numbered by the rows in front of it |
| SemanticInk.CommandInk | backend/internal/document/semantic_chunker.go:133-148 | A code chunk holds, white space aside, the blocks in front of the command, the command, and the blocks behind it, each part behind its title |
| SemanticTexts.ContextBlocks | backend/internal/document/semantic_chunker.go:272-284 | The blocks around a command are the nearest ones on either side, up to the limit |
| SemanticKeys.TableChunksKeys | backend/internal/document/semantic_chunker.go:170-206 | The chunks of a table together name the table, its rows and their cells, and nothing else |
| SemanticKeys.ChildrenNameTheSection | backend/internal/document/semantic_chunker.go:110-231 | The children of a section together name exactly the blocks the section chunk names |
| SemanticChunks.SplitBlocks | backend/internal/document/semantic_chunker.go:60-68 | Roots and children by parent, each in the order of the list |
| SemanticOrder.RootsPicked | backend/internal/document/semantic_chunker.go:60-68 | The roots are the blocks without a parent, in order |
| SemanticOrder.OrderIsStable | backend/internal/document/semantic_chunker.go:69 | The roots are taken by rising order, those of one order as they stand in the list |
| SemanticOrder.ChildrenPicked | backend/internal/document/semantic_chunker.go:60-68 | The children of a block are the blocks that name it, in order |
| SemanticBuild.BuildSemanticChunks | backend/internal/document/semantic_chunker.go:52-88 | For every list of stored blocks the list returned is a tree in which every child stands behind its section chunk with only children of it between, and the children of every section chunk together name exactly the blocks it names; the line of every root block that is no table, and every cell of every table, stands in the chunk of its section and in a child of that chunk which names it, every command also behind its title; the section chunks together hold the runes of all roots and the group chunks those of the plain ones, none lost, doubled or moved; the input is refused exactly when it is empty or the configuration is out of range |
| SemanticChunks.BuiltIsTree | backend/internal/document/semantic_chunker.go:72-83 | Before numbering: a child's parent is an earlier section chunk with the same path, with only children of that parent in between |
| SemanticChunks.ChildrenNameTheirSection | backend/internal/document/semantic_chunker.go:72-83 | Before numbering: in the whole list, the children of every section chunk together name exactly the blocks it names |
| SemanticChunks.NumberedTree | backend/internal/document/semantic_chunker.go:84-88 | Numbering the list keeps the tree and the agreement of the keys |
| SemanticInk.TextsAreKept | backend/internal/document/semantic_chunker.go:72-88 | Section chunks and group chunks keep the text of all roots and of the plain ones, section by section and block by block |
| SemanticTexts.ListShows | backend/internal/document/semantic_chunker.go:52-88 | Before numbering: where the text of each block, cell, command and rowless table stands |
| SemanticTexts.LostTable | backend/internal/document/semantic_chunker.go:72-78 | A document whose only block is a table without rows, the text of which is in no chunk |
| SemanticSizes.GroupSize | backend/internal/document/semantic_chunker.go:110-160 | The chunk of a group has at most the size limit, or its first block alone where that is larger, plus the blocks pulled in and two newlines between blocks |
| LogPreprocess.Preprocess | backend/internal/logs/preprocess.go:67-117 | One pass over three maps computes, for every key, template and minute, exactly the number of entries with it, lists the items in the order of their first entries, and clusters and buckets strictly ordered |
| LogPreprocess.TallyItem | backend/internal/logs/preprocess.go:76-112 | One item moves all three maps and the counters on together |
| LogSummary.SummaryMeans | backend/internal/logs/preprocess.go:67-117 | Said of the entries alone: an item counts those equal to it in every field of the key, a cluster those of its template, a bucket those of the 60 seconds from its start and the errors among them; clusters fall in count and then rise in template, buckets rise; and every entry is in an item and, with a time stamp, in a bucket |
| LogSummary.ItemsInOrder | backend/internal/logs/preprocess.go:76-92 | The items stand in the order of their first entries |
| LogSummary.ClustersShowFirst | backend/internal/logs/preprocess.go:93-98 | A cluster shows level and message of the first entry of its template |
| LogPreprocess.SortedClusters | backend/internal/logs/preprocess.go:215-227 | One cluster a template, by falling count and then by template, strictly, in whatever order the map is listed |
| LogPreprocess.SortedBuckets | backend/internal/logs/preprocess.go:229-238 | One bucket a minute, by rising time, strictly |
| LogPreprocess.TablesAgree | backend/internal/logs/preprocess.go:67-117 | Duplicate counts and cluster counts both add up to the input; each cluster count is the sum of the duplicate counts of its template; bucket errors add up to at most the error count, with equality exactly when every error has a time stamp |
| LogPreprocess.TemplateAddsUp | backend/internal/logs/preprocess.go:80-98 | For every template the duplicate counts of its items add up to the number of entries with it |
| Counting.TotalIsKeyed | backend/internal/logs/preprocess.go:80-112 | Counts of distinct keys that cover a list add up to its length |
| EmbeddingBuild.NormalizeBatchSize | backend/internal/embeddingindex/service.go:365-373 | A batch size between 1 and 100: the one asked for if it is in range, 64 for none, 100 for too many |
| EmbeddingBuild.EmbeddingIndex.Refresh | backend/internal/repository/embedding_index_repository.go:50-73 | A look at the index writes the fingerprint and count of the chunks there are when they differ and turns ready and failed into stale; it succeeds exactly when there is nothing to write or the write is reported stored |
| EmbeddingBuild.EmbeddingIndex.ReplaceChunks | backend/internal/repository/document_repository.go:186-216 | Chunks are deleted and others created under ids never used before; the stored vectors of the deleted ones go with them |
| EmbeddingBuild.EmbeddingIndex.Upsert | backend/internal/repository/embedding_index_repository.go:103-129 | A batch is stored exactly when all its chunks are still there and the write succeeds |
| EmbeddingBuild.EmbeddingIndex.Serve | backend/internal/embeddingindex/service.go:120-267 | Reply and stored index of the four entries for every fate of every write and whatever others do in between: the claim is reached exactly when the mark of a rebuild and the refresh are stored, the status is allowed then and at the claim, the configuration is in order and the chunks listed are some and of the fingerprint looked at; complete exactly when then every chunk is embedded and stored and the last update and the search index succeed |
| EmbeddingBuild.EmbeddingIndex.BuildClaimed | backend/internal/embeddingindex/service.go:208-266 | A claimed build completes, fails or cannot finish exactly as its batches, its last update and the search index go, and leaves the index as the value-level build does |
| EmbeddingBuild.EmbeddingIndex.EmbedAll | backend/internal/embeddingindex/service.go:216-257 | The batch loop computes the value-level batches, however the chunks change meanwhile, and counts all chunks of its list when it gets to its end |
| EmbeddingBuild.EntriesStart | backend/internal/embeddingindex/service.go:120-206 | From which states the four entries go on to list the chunks |
| EmbeddingBuild.BuildRows | backend/internal/embeddingindex/service.go:237-250 | Rows are built exactly when every vector has the dimension of the index, each from its own chunk and vector |
| EmbeddingRows.EmbeddedMeansGood | backend/internal/embeddingindex/service.go:211-257 | A claimed build embeds and stores every chunk exactly when the claim and the credential are good and every batch has an answer that fits it, is stored, and has no chunk that was deleted before |
| EmbeddingRows.BatchesLeft | backend/internal/embeddingindex/service.go:216-257 | However far the loop gets, the index holds the rows of the first chunks of the list: row n has id and hash of chunk n and the vector at n modulo the batch size of the answer to call n divided by the batch size, and the input of that call at this place is the text of chunk n; but those of chunks deleted since are gone |
| EmbeddingRows.DeletedFails | backend/internal/repository/embedding_index_repository.go:103-129 | A build that lists a chunk which is deleted before its batch is stored does not end well |
| EmbeddingStore.EventLeft | backend/internal/repository/document_repository.go:186-216 | Of the rows of a build exactly those whose chunk is still there stay, whatever others do |
| EmbeddingRuns.EndsBuilding | backend/internal/embeddingindex/service.go:204-266 | A call leaves an index building that was not exactly when it reaches the claim and the claim is stored but reported failed, or the build fails and its mark is lost, or the last update is not stored |
| EmbeddingRuns.BuildingStays | backend/internal/repository/embedding_index_repository.go:75-87 | No call gets an index out of the building state or changes its rows: none allows it, and a rebuild does not mark it |
| EmbeddingRuns.BuildingMeansStuck | backend/internal/embeddingindex/service.go:120-267 | Along every sequence of calls and events the index is building exactly when an earlier build got stuck |
| EmbeddingRuns.ReadyIsBuilt | backend/internal/embeddingindex/service.go:120-267 | Along every sequence of calls and events from creation on, a ready index is the work of one earlier call that embedded its whole list: it holds the row that call made of each chunk, of the vector the service answered to the text of this chunk, but those of chunks deleted since; it counts all of them, and has the fingerprint that call left |
| EmbeddingRuns.AllRowsLeft | backend/internal/embeddingindex/service.go:120-267 | A ready index holds as many rows as it counts exactly when no chunk of the list it was built from was deleted since, and then exactly the rows of the build |
| EmbeddingRuns.BuiltPrint | backend/internal/repository/embedding_index_repository.go:131-140 | The fingerprint a build leaves is that of the chunks the last look stored during the build saw, or the one before |
| EmbeddingRuns.CompleteMeansUndisturbed | backend/internal/embeddingindex/service.go:155-176 | A ready index on which a look finds nothing to write has exactly one row of its own for each chunk there is exactly when no look during its build left another fingerprint than that of the chunks built |
| EmbeddingRuns.ReadyIsComplete | backend/internal/embeddingindex/service.go:155-176 | Along every sequence of calls and events from creation on, a ready index found unchanged was built by one earlier call, and is complete exactly when that build was undisturbed |
| EmbeddingGap.ReadyOverNothing | backend/internal/repository/embedding_index_repository.go:131-140 | When all chunks are replaced by as many others after the last batch and somebody looks, the index is reported ready and found unchanged with the full count and no vector at all |
| EmbeddingGap.MisreportedIndex | backend/internal/embeddingindex/service.go:155-176 | Such a build of a freshly created index of one chunk |
| Fingerprint.ChunkFingerprint | backend/internal/embeddingindex/service.go:355-363 | The loop feeds the sorted lines to the hash |
| Fingerprint.SameTextSameChunks | backend/internal/embeddingindex/service.go:355-363 | For distinct ids and hashes without newlines two chunk lists have the same fingerprint text exactly when they hold the same chunks with the same hashes, in any order |
| HostKey.HostRecord.Verify | backend/internal/linuxhost/host_key.go:87-149 | Verdict and stored state after a verification, for every outcome of the repository write |
| HostKey.HostRecord.Confirm | backend/internal/linuxhost/host_key.go:158-192 | A confirmation is stored exactly when an administrator gives the pending pair of a pending or mismatched host; it counts as successful when its audit entry is written too |
| HostKey.HostRecord.Preflight | backend/internal/linuxhost/host_key.go:61-82 | The preflight verdict on the stored state |
| HostKey.HostRecord.RecordCandidate | backend/internal/repository/linux_host_repository.go:278-286 | The candidate becomes the pending pair |
| HostKey.HostRecord.RecordMismatch | backend/internal/repository/linux_host_repository.go:288-300 | The observed pair becomes the pending pair of a mismatched host |
| HostKey.KeyIsTrimmedPair | backend/internal/linuxhost/host_key.go:274-298 | A key is accepted exactly when algorithm and fingerprint are in order once trimmed, and then it is the two trimmed texts, whole |
| HostKey.AllowedExactly | backend/internal/linuxhost/host_key.go:87-149 | A verification is allowed exactly on an enabled host of a supported policy that is not mismatched, for the key the host knows, or for a first one that is noted; never for collecting a first one |
| HostKey.MismatchExactly | backend/internal/linuxhost/host_key.go:113-134 | A verification leaves a mismatch exactly when there was one, or another key than the known one is seen and written; it never touches the trusted pair |
| HostKey.OneKeyBetweenConfirmations | backend/internal/linuxhost/host_key.go:87-192 | Over any sequence of calls, all verifications allowed between two confirmations are of one and the same key |
| HostKey.MismatchBlocks | backend/internal/linuxhost/host_key.go:113-122 | After a mismatch nothing is allowed until a confirmation, and only the pair seen then can be confirmed |
| HostKey.OnlyTheConfirmedKey | backend/internal/linuxhost/host_key.go:158-192 | After a confirmation only the confirmed pair, which was the pending one, is allowed until the next |
| HostKey.CollectNeedsAKey | backend/internal/linuxhost/host_key.go:136-138 | Collecting is never allowed without a trusted or a pending pair, and changes nothing |
| HostKey.PreflightFindsTheKey | backend/internal/linuxhost/host_key.go:61-82 | A preflight that passes for collecting means that exactly one key would be allowed |
| HostKey.ConfirmedIsStored | backend/internal/linuxhost/host_key.go:182-191 | A confirmation is reported successful exactly when it is stored and audited; a stored one can be reported as failed by its audit entry only |
| HostKey.PreflightRefusals | backend/internal/linuxhost/host_key.go:61-149 | When the preflight refuses, some verification would be allowed exactly when it is for collecting, on an enabled host of a supported policy that is unverified or trusted without a configured key and has both pending fields set |
| HostKey.PreflightIsRight | backend/internal/linuxhost/host_key.go:61-149 | On a host that starts without a noted pair no sequence of calls leads there: what the preflight refuses is refused |
| HostKeyOverlap.OneKeyDespiteOverlap | backend/internal/linuxhost/host_key.go:87-192 | With verifications that read first and write later, all keys allowed between two confirmations are one and the same if every late first use still finds the host free for its key |
| HostKeyOverlap.FreeKeepsSettled | backend/internal/repository/linux_host_repository.go:278-286 | A late first use leaves every host settled on a key settled on it exactly when it finds the host not mismatched and without another key |
| HostKeyOverlap.TwoFirstUses | backend/internal/linuxhost/host_key.go:136-149 | Two first uses of different keys that both read the host before either writes are both allowed |
| HostKeyOverlap.LateFirstUse | backend/internal/repository/linux_host_repository.go:278-286 | A first use that writes after a confirmation takes the confirmed key off the host |
| HostKeyOverlap.LateFirstUseUnblocks | backend/internal/linuxhost/host_key.go:136-149 | A first use that writes after a mismatch lifts the block: another key is allowed without a confirmation |
| HostKeyOverlap.LateMismatchReplaces | backend/internal/repository/linux_host_repository.go:288-300 | A late mismatch replaces the pair noted by an earlier one, and with it the only pair that can be confirmed |
| HostKeyOverlap.FreeIsSafe | backend/internal/linuxhost/host_key.go:87-149 | A late first use, whose key is allowed in any case, finds the host free exactly when the host is not mismatched and a verification just before it would allow no other key |
| HostKeyOverlap.ConfirmedDespiteOverlap | backend/internal/linuxhost/host_key.go:158-192 | In runs in which every late first use finds the host free, only the confirmed key is allowed after a confirmation until the next |
| HostKeyOverlap.BlockedDespiteOverlap | backend/internal/linuxhost/host_key.go:113-122 | In such runs nothing is allowed on a mismatched host until a confirmation |
| HostKeyOverlap.OnlyTheNotedPair | backend/internal/linuxhost/host_key.go:158-192 | In such runs only the pair seen at a mismatch can be confirmed until a late mismatch notes another |
| HostKeyOverlap.NoGapIsSerial | backend/internal/linuxhost/host_key.go:87-149 | Without a gap between reading and writing the overlapping step is the serial one |
| ImportRows.BuildImportRows | backend/internal/linuxhost/importer.go:316-402 | Row by row: number, port, action, existing host and issues, with a repeated key noted exactly when an earlier record has it |
| ImportRows.CleanRowsDiffer | backend/internal/linuxhost/importer.go:387-390 | A row of a file without an issue has another environment, host and port than every earlier row |
| ImportRows.CleanMeans | backend/internal/linuxhost/importer.go:344-390 | A row has no issue exactly when it has a name, a host and a port from 1 to 65535, its group and credential are in order, and no earlier record has its key |
| ImportRows.KeyTellsApart | backend/internal/linuxhost/importer.go:407-409 | Keys are equal exactly when environment, host and port are, white space around and letter case aside, as long as no environment holds a NUL |
| ImportRows.NulKeysCollide | backend/internal/linuxhost/importer.go:407-409 | Different hosts with one key, by a NUL in an environment |
| ImportRows.LastKnownWins | backend/internal/linuxhost/importer.go:334-337 | A key finds the last known host that has it, and none exactly when no host has it |
| ImportRows.RowAsks | backend/internal/linuxhost/importer.go:225-260 | What running a row asks of the host service: a new host for an unknown key, else what the strategy says for the known one |
| ImportRows.CountRows | backend/internal/linuxhost/importer.go:186-201 | Valid and invalid rows add up to all rows |
| ImportRows.RunRows | backend/internal/linuxhost/importer.go:225-260 | Every row is skipped, created or updated as its action says, and a failing row does not stop the others |
| ImportRows.NothingUnaccounted | backend/internal/linuxhost/importer.go:224-261 | Created + updated + skipped + failed = total = number of result items |
| ImportStore.BatchImporter.Preview | backend/internal/linuxhost/importer.go:175-207 | After cleanup and reading, the rows built from the records are counted and stored under the token with the time of a second look at the clock; refused exactly for callers that are not administrators and for too many rows |
| ImportStore.BatchImporter.Confirm | backend/internal/linuxhost/importer.go:209-261 | The preview leaves the store first; its rows are run exactly when it was there, has not expired and has no invalid row |
| ImportStore.BatchImporter.CleanupExpired | backend/internal/linuxhost/importer.go:263-271 | Exactly the previews that have not expired stay |
| ImportStore.RunAtMostOnce | backend/internal/linuxhost/importer.go:209-223 | However previews, confirmations and cleanups follow one another, no preview is run twice |
| ImportStore.RunsAreTimelyAndClean | backend/internal/linuxhost/importer.go:209-223 | The rows run are those of an earlier preview call, before its expiry; none has an issue, and each has a name, a host and a port from 1 to 65535 |
| ImportStore.RunRowsDiffer | backend/internal/linuxhost/importer.go:209-223 | Whatever the calls, no two rows of a preview that is run name the same environment, host and port |
| LogLimit.NormalizeLimits | backend/internal/k8s/service.go:725-733 | Both limits are positive and bounded, kept when in range, and 200 lines and 65536 bytes otherwise |
| LogLimit.LimitLogContent | backend/internal/k8s/service.go:1087-1107 | The result is the longest suffix of the log with at most `maxBytes` bytes and at most `tailLines` lines: every longer suffix breaks one of the limits; and truncation is reported exactly when it differs from the log |
| LogLimit.RebuildsContent | backend/internal/k8s/service.go:1089-1100 | Splitting into lines and joining again, with the final newline, gives the log back |
| LogLimit.SuffixCount | backend/internal/k8s/service.go:1109-1115 | A suffix has no more lines than the whole |

## Left out

- HTTP handlers, routing, middleware, configuration, migrations and the frontend: plumbing without a property of runs.
- LLM, Kubernetes, SSH, SFTP and HTTP clients: each is an answer given as a parameter.
- Encryption, password hashing and tokens: the model meets them as parameters only.
- DOCX, XLSX, PDF and CSV reading and the file security checks: they depend on libraries outside the model.
- Redaction, templates, level names and stack truncation of the log preprocessor: parameters of `LogPreprocess.Rules`.
- Keyword and summary enhancement of chunks, content hashes, titles, sibling groups, semantic units, chunk types of groups and neighbouring context: fields no other step reads.
- JSON encoding: section paths and attributes are taken to survive it; attributes are maps of strings.
- Starting, listing and exporting batch jobs, and their access checks: the job returned by a start is unspecified because it is cloned without the lock after the goroutine is spawned.
- Which of several paths of equal score is returned: it depends on map order.
- Reading the context between lines of a Markdown document: a cancelled parse is not modelled.
- Explanation texts, time windows and the loading of topology and events.
- File reading, temporary files and the column mapping of imports: records are given with the verdicts on their credential group and credential.
- HostKey.OneKeyBetweenConfirmations: takes calls one after the other; verifications run in no transaction, and `HostKeyOverlap.OneKeyDespiteOverlap` says when the promise survives overlap.
- HostKey.MismatchBlocks: takes calls one after the other; `HostKeyOverlap.BlockedDespiteOverlap` and `HostKeyOverlap.OnlyTheNotedPair` say when it survives overlap.
- HostKey.OnlyTheConfirmedKey: takes calls one after the other; `HostKeyOverlap.ConfirmedDespiteOverlap` says when it survives overlap.
- Editing a host (its policy, its configured fingerprint, whether it is enabled) between host key calls.
- BlockTree.AssignBlockIdentity: works on values instead of writing into the shared block slices, so aliasing between blocks is not modelled.
- BlockTree.FlattenASTBlocks: the rows leave out the content hash and the encoded attributes; block ids stand for block keys.
- BlockStore.BuildBlocks: the recursion carries a depth bound of the number of rows, so rows whose parents form a cycle, on which the source would not be reached from a root either, stay out of the forest.
- MarkdownDocument.ParseMarkdown: a table row is the list of its cell texts and a block has no generated id; numbering gives both anew after parsing.
- SemanticSizes.GroupSize: no bound on the blocks a warning pulls in, or on table and code children, which the source does not measure.
- SemanticRender.ChunkPages: stated for the block list alone; the chunk records of the model carry no pages.
- EmbeddingBuild.EmbeddingIndex.Serve: a look reads the chunks and writes at once, nothing happens between the last update and the search index, and builds of one index that overlap are not modelled; failing reads before the refresh, which change nothing, are left out.
- TopologyReach.SolvableIffLinked: needs node keys none of which is another key with white space around it; `TopologyKeys.ExactKeys` shows that this is the exact condition.
- Fingerprint.SameTextSameChunks: needs hashes without newlines, which hexadecimal digests are.
