/** The gap in the build of an embedding index: reported ready, found unchanged, and without vectors. */
module EmbeddingGap {
  import opened Writes
  import Fingerprint
  import opened EmbeddingStore
  import opened EmbeddingBuild
  import opened EmbeddingRows
  import opened EmbeddingRuns

  /** `Status` reports the index as ready. */
  predicate Reported(i: Index) {
    i.status == Ready && i.embeddedCount == i.chunkCount && i.chunkCount > 0
  }

  lemma {:induction false} NoneLeft(full: seq<Row>, chunks: seq<Chunk>)
    requires forall k :: 0 <= k < |full| ==> !HasId(chunks, full[k].chunkId)
    ensures Present(full, chunks) == []
  {
    if full != [] {
      hide HasId;
      NoneLeft(full[..|full| - 1], chunks);
    }
  }

  /** The last thing that happens before the end of the build: all its chunks are replaced, and somebody looks. */
  predicate ReplacedAtTheEnd(i: Index, c: Call) {
    && |c.world.closing| == 2 && c.world.closing[0].Replace? && c.world.closing[1] == Look(Stored)
    && |c.world.closing[0].texts| == |List(i, c)|
    && forall n :: 0 <= n < |List(i, c)| ==> List(i, c)[n].id in c.world.closing[0].drops
  }

  lemma {:induction false} DroppedAll(chunks: seq<Chunk>, drops: set<nat>)
    requires forall n :: 0 <= n < |chunks| ==> chunks[n].id in drops
    ensures Without(chunks, drops) == []
  {
    if chunks != [] {
      DroppedAll(chunks[..|chunks| - 1], drops);
    }
  }

  lemma {:induction false} AfterTheEnd(i: Index, closing: seq<Event>)
    requires |closing| == 2 && closing[0].Replace? && closing[1] == Look(Stored)
    requires |closing[0].texts| == |i.chunks| && forall n :: 0 <= n < |i.chunks| ==> i.chunks[n].id in closing[0].drops
    ensures var j := AfterEvents(i, closing);
            && j.chunks == Given(closing[0].texts, i.nextId)
            && j.fingerprint == Print(j.chunks) && j.chunkCount == |j.chunks| == |i.chunks|
  {
    DroppedAll(i.chunks, closing[0].drops);
    var first := closing[..1];
    assert closing[..2] == closing && closing[..1][..0] == [] && first[0] == closing[0];
    assert AfterEvents(i, first) == AfterEvent(i, closing[0]);
    assert AfterEvents(i, closing) == AfterEvent(AfterEvents(i, first), closing[1]);
    hide Fingerprint.FingerprintText, Without, AfterEvents;
  }

  lemma ClosedTable(i: Index, c: Call, shape: Shape)
    requires Embedded(i, c, shape)
    ensures SameTable(Built(i, c, shape), AfterEvents(BatchesOf(i, c, shape).index, c.world.closing))
  {
    hide AfterEvents, BatchesOf, List;
  }

  lemma {:induction false} BatchesOld(i: Index, c: Call, shape: Shape)
    requires Sound(i) && BatchesOf(i, c, shape).index.chunks == List(i, c)
    ensures Old(List(i, c), BatchesOf(i, c, shape).index.nextId)
  {
    var b, size := Begun(Waited(i, c)), NormalizeBatchSize(c.batchSize);
    WaitedSound(i, c);
    BegunLeft(Waited(i, c));
    hide AfterEvents, Batches, Waited, List, Made;
    MadeNothing(List(i, c), size, shape, c.world);
    var full := BatchesLeft(b, [], List(i, c), 0, size, shape, c.world);
  }

  lemma BuiltFacts(now: Index, before: Index, c: Call, shape: Shape, full: seq<Row>)
    requires BuiltBy(now, before, c, shape, full)
    ensures Made(full, List(before, c), NormalizeBatchSize(c.batchSize), shape, c.world)
    ensures |full| == |List(before, c)| == now.embeddedCount > 0 && now.rows == Present(full, now.chunks)
  {
    hide Claims, Embedded, Made, List, After, Sound;
  }

  lemma OldIsNotGiven(list: seq<Chunk>, texts: seq<Text>, next: nat, n: nat)
    requires Old(list, next) && n < |list|
    ensures !HasId(Given(texts, next), list[n].id)
  {
    hide Given;
  }

  lemma {:induction false} EndTable(i: Index, c: Call, shape: Shape)
    requires Claims(i, c) && After(i, c, shape).status == Ready
    requires BatchesOf(i, c, shape).index.chunks == List(i, c) && ReplacedAtTheEnd(i, c)
    ensures c.world.closing[0].Replace?
    ensures var j := After(i, c, shape);
            && j.chunks == Given(c.world.closing[0].texts, BatchesOf(i, c, shape).index.nextId)
            && !Changed(j) && j.chunkCount == |List(i, c)|
  {
    ReadyStatus(i, c, shape);
    BuiltAfter(i, c, shape);
    ClosedTable(i, c, shape);
    hide After, AfterEvents, Claims, Embedded, Built, BatchesOf, List, Fingerprint.FingerprintText, Given, Entries;
    AfterTheEnd(BatchesOf(i, c, shape).index, c.world.closing);
  }

  /**
   * Chunks that are replaced after the last batch: their vectors go with them, the look moves the fingerprint to the new
   * chunks, the last update does not compare it. The index is reported ready and found unchanged, and holds nothing.
   */
  lemma {:induction false} ReadyOverNothing(i: Index, c: Call, shape: Shape)
    requires Sound(i) && Claims(i, c) && After(i, c, shape).status == Ready
    requires BatchesOf(i, c, shape).index.chunks == List(i, c) && ReplacedAtTheEnd(i, c)
    ensures var j := After(i, c, shape);
            Reported(j) && !Changed(j) && j.rows == [] && j.embeddedCount == |List(i, c)| > 0
  {
    var j := After(i, c, shape);
    var full := ReadyBuilt(i, c, shape);
    BuiltFacts(j, i, c, shape, full);
    EndTable(i, c, shape);
    BatchesOld(i, c, shape);
    hide After, Claims, BatchesOf, List, Changed, HasId, BuiltBy, ReplacedAtTheEnd, Old;
    forall n | 0 <= n < |full| ensures !HasId(j.chunks, full[n].chunkId) {
      RowsId(full, List(i, c), NormalizeBatchSize(c.batchSize), shape, c.world, n);
      OldIsNotGiven(List(i, c), c.world.closing[0].texts, BatchesOf(i, c, shape).index.nextId, n);
    }
    NoneLeft(full, j.chunks);
  }

  // An index of one chunk, and a build during which that chunk is replaced.

  const ONE_CHUNK := [Chunk(0, "a", "1")]
  const ONE_SHAPE := Shape("m", 1, false)

  function OneIndex(): Index {
    Index(ONE_CHUNK, 1, Print(ONE_CHUNK), 1, Pending, 0, [])
  }

  function OneWorld(): World {
    World(Stored, Stored, true, [], [], Stored, true, (n: nat, inputs: seq<string>) => Vectors([[0.0]], ""), (n: nat) => [],
          (n: nat) => Stored, [Replace({0}, [Text("b", "2")]), Look(Stored)], Stored, true, true, (v: Vector) => v)
  }

  function OneCall(): Call {
    Call(Build, 64, OneWorld())
  }

  function OneRow(): Row {
    RowOf(ONE_CHUNK[0], [0.0], ONE_SHAPE, OneWorld())
  }

  lemma OneOpens()
    ensures var i, c := OneIndex(), OneCall();
            Prepared(i, c) == Opened(i, c) == Waited(i, c) == i && List(i, c) == ONE_CHUNK && Claims(i, c) && Created(i)
  {
    hide Fingerprint.FingerprintText;
  }

  lemma OneAnswer()
    ensures Fits(OneWorld().embed(0, Contents(ONE_CHUNK)), 1, ONE_SHAPE)
    ensures OneWorld().embed(0, Contents(ONE_CHUNK)) == Vectors([[0.0]], "")
    ensures RowsFor(ONE_CHUNK, [[0.0]], ONE_SHAPE, OneWorld()) == [OneRow()]
  {
    hide RowOf;
  }

  lemma OneThere()
    ensures |ONE_CHUNK| == 1 && AllThere(ONE_CHUNK, ONE_CHUNK)
  {
    assert ONE_CHUNK[0].id == 0;
    assert HasId(ONE_CHUNK, 0);
  }

  lemma Undisturbed(b: Index)
    ensures AfterEvents(b, OneWorld().during(0)) == b && OneWorld().stores(0) == Stored
  {
  }

  lemma OneBatch(b: Index)
    requires b.chunks == ONE_CHUNK
    ensures NextBatch(b, ONE_CHUNK, 0, ONE_SHAPE, OneWorld()) == Progress(b.(rows := b.rows + [OneRow()]), true)
  {
    OneAnswer();
    OneThere();
    Undisturbed(b);
    hide Fits, AllThere, RowsFor, AfterEvents, OneWorld, OneRow, Contents;
  }

  lemma OneBatches()
    ensures BatchesOf(OneIndex(), OneCall(), ONE_SHAPE) == Progress(Begun(OneIndex()).(rows := [OneRow()]), true)
  {
    hide Fingerprint.FingerprintText, NextBatch, Waited, List, OneRow;
    OneOpens();
    var b := Begun(OneIndex());
    OneBatch(b);
    assert Part(ONE_CHUNK, 0, 64) == ONE_CHUNK && [] + [OneRow()] == [OneRow()];
  }

  lemma {:induction false} OneReady()
    ensures var i, c := OneIndex(), OneCall();
            After(i, c, ONE_SHAPE).status == Ready && BatchesOf(i, c, ONE_SHAPE).index.chunks == List(i, c) && ReplacedAtTheEnd(i, c)
  {
    OneOpens();
    OneBatches();
    BuiltAfter(OneIndex(), OneCall(), ONE_SHAPE);
    hide Fingerprint.FingerprintText, BatchesOf, AfterEvents, After, OneRow, List, Waited;
    EventsReady(BatchesOf(OneIndex(), OneCall(), ONE_SHAPE).index, OneWorld().closing);
  }

  /** One build of a fresh index is enough: `Status` reports it ready, a look finds it unchanged, and it holds nothing. */
  lemma {:induction false} MisreportedIndex()
    ensures Created(OneIndex())
    ensures var j := Along(OneIndex(), [Served(OneCall())], ONE_SHAPE);
            Reported(j) && !Changed(j) && j.rows == [] && j.embeddedCount == 1
  {
    assert [Served(OneCall())][..0] == [];
    assert Along(OneIndex(), [Served(OneCall())], ONE_SHAPE) == Next(OneIndex(), Served(OneCall()), ONE_SHAPE);
    OneOpens();
    OneReady();
    CreatedIsSound(OneIndex());
    hide Changed, After, Along, Claims, ReplacedAtTheEnd, BatchesOf, List, OneIndex, OneCall, Created;
    ReadyOverNothing(OneIndex(), OneCall(), ONE_SHAPE);
  }

  lemma CreatedIsSound(i: Index)
    requires Created(i)
    ensures Sound(i)
  {
  }
}
