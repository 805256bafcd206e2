/** Building an embedding index: the entries of the service, and the loop that embeds the chunks batch by batch. */
module EmbeddingBuild {
  import opened Wrappers
  import opened Writes
  import Fingerprint
  import opened EmbeddingStore

  /** What the embedding service answers to one call. */
  datatype Answer = CallFailed | Vectors(vectors: seq<Vector>, model: string)

  /**
   * The world around one call of the service: the fate of each write, whether the configuration and the list of chunks can
   * be had, whether the credential and the search index succeed, the answer to the n-th embedding call and the fate of the
   * n-th batch, and what other callers do in between: before the chunks are listed, before the claim, before the n-th batch
   * is stored, before the last update. `failing` says whether the mark of a failed build is stored.
   */
  datatype World = World(mark: Write, refresh: Write, configured: bool, opening: seq<Event>, waiting: seq<Event>,
                         claim: Write, credential: bool, embed: (nat, seq<string>) -> Answer, during: nat -> seq<Event>,
                         stores: nat -> Write, closing: seq<Event>, finish: Write, searchIndex: bool, failing: bool,
                         normalize: Vector -> Vector)

  datatype Outcome = Completed | Looked | MarkFailed | RefreshFailed | InvalidState | Unavailable | ClaimFailed | BuildFailed
                   | FinishFailed

  datatype Entry = Get | Build | Retry | Rebuild

  datatype Call = Call(entry: Entry, batchSize: int, world: World)

  /** What every row of one index has in common. */
  datatype Shape = Shape(model: string, dimension: nat, normalized: bool)

  function NormalizeBatchSize(value: int): (r: nat)
    ensures 1 <= r <= 100
    ensures 1 <= value <= 100 ==> r == value
    ensures value <= 0 ==> r == 64
    ensures value > 100 ==> r == 100
  {
    if value <= 0 then 64 else if value > 100 then 100 else value
  }

  function Least(a: nat, b: nat): nat {
    if a < b then a else b
  }

  // ---------- one batch ----------

  /** The inputs of a call: the texts of the chunks. */
  function Contents(chunks: seq<Chunk>): (r: seq<string>)
    ensures |r| == |chunks|
    ensures forall k :: 0 <= k < |r| ==> r[k] == chunks[k].content
  {
    if chunks == [] then [] else Contents(chunks[..|chunks| - 1]) + [chunks[|chunks| - 1].content]
  }

  function RowOf(chunk: Chunk, vector: Vector, shape: Shape, world: World): Row {
    Row(chunk.id, chunk.contentHash, shape.model, shape.dimension, if shape.normalized then world.normalize(vector) else vector,
        shape.normalized)
  }

  /** The answer has one vector of the right dimension for each input, of the right model if it names one. */
  predicate Fits(answer: Answer, n: nat, shape: Shape) {
    && answer.Vectors? && |answer.vectors| == n
    && (answer.model == "" || answer.model == shape.model)
    && forall i :: 0 <= i < n ==> |answer.vectors[i]| == shape.dimension
  }

  /** Every chunk is still in the table: a vector of a deleted chunk cannot be stored. */
  predicate AllThere(part: seq<Chunk>, chunks: seq<Chunk>) {
    forall k :: 0 <= k < |part| ==> HasId(chunks, part[k].id)
  }

  function RowsFor(part: seq<Chunk>, vectors: seq<Vector>, shape: Shape, world: World): (r: seq<Row>)
    requires |part| == |vectors|
    ensures |r| == |part|
    ensures forall k :: 0 <= k < |r| ==> r[k] == RowOf(part[k], vectors[k], shape, world)
  {
    if part == [] then []
    else
      var n := |part| - 1;
      RowsFor(part[..n], vectors[..n], shape, world) + [RowOf(part[n], vectors[n], shape, world)]
  }

  // ---------- the batch loop, on values ----------

  datatype Progress = Progress(index: Index, ok: bool)

  /** The chunks of the batch from `start` on. */
  function Part(list: seq<Chunk>, start: nat, size: nat): seq<Chunk> {
    if start >= |list| then [] else list[start..Least(start + size, |list|)]
  }

  /** One batch: what others do meanwhile, the answer of call `call`, the write; ok if the loop goes on. */
  function NextBatch(i: Index, part: seq<Chunk>, call: nat, shape: Shape, world: World): Progress {
    var answer := world.embed(call, Contents(part));
    var j := AfterEvents(i, world.during(call));
    if !Fits(answer, |part|, shape) || !AllThere(part, j.chunks) || world.stores(call) == NotStored then Progress(j, false)
    else Progress(j.(rows := j.rows + RowsFor(part, answer.vectors, shape, world)), world.stores(call) == Stored)
  }

  /** The batches from `start` on, of which the next is call `call` to the service. */
  function Batches(i: Index, list: seq<Chunk>, start: nat, call: nat, size: nat, shape: Shape, world: World): Progress
    requires size > 0
    decreases |list| - start
  {
    if start >= |list| then Progress(i, true)
    else
      var p := NextBatch(i, Part(list, start, size), call, shape, world);
      if p.ok then Batches(p.index, list, start + size, call + 1, size, shape, world) else p
  }

  // ---------- one call of the service, on values ----------

  function Allowed(entry: Entry): set<Status> {
    match entry
    case Get => {}
    case Build => {Pending, Stale}
    case Retry => {Failed}
    case Rebuild => {Stale}
  }

  /** `MarkEmbeddingIndexStale`, which only `Rebuild` starts with. */
  function AfterMark(i: Index, c: Call): Index {
    if c.entry == Rebuild && i.status != Building && c.world.mark != NotStored then i.(status := Stale) else i
  }

  predicate Marked(i: Index, c: Call) {
    c.entry == Rebuild ==> i.status != Building && c.world.mark == Stored
  }

  /** The index after the mark of a rebuild and the look every call starts with. */
  function Prepared(i: Index, c: Call): Index {
    if Marked(i, c) then AfterLook(AfterMark(i, c), c.world.refresh) else AfterMark(i, c)
  }

  predicate Refreshed(i: Index, c: Call) {
    Marked(i, c) && (Changed(AfterMark(i, c)) ==> c.world.refresh == Stored)
  }

  /** The call goes on to list the chunks. */
  predicate Lists(i: Index, c: Call) {
    Refreshed(i, c) && Prepared(i, c).status in Allowed(c.entry) && c.world.configured
  }

  function Opened(i: Index, c: Call): Index {
    AfterEvents(Prepared(i, c), c.world.opening)
  }

  /** The chunks the call lists, and embeds if it gets that far. */
  function List(i: Index, c: Call): seq<Chunk> {
    Opened(i, c).chunks
  }

  /** The list is not empty and has the fingerprint the index had when the call looked at it. */
  predicate Matches(i: Index, c: Call) {
    List(i, c) != [] && Print(List(i, c)) == Prepared(i, c).fingerprint
  }

  function Waited(i: Index, c: Call): Index {
    AfterEvents(Opened(i, c), c.world.waiting)
  }

  /** The call gets as far as the claim, and the claim finds the index in an allowed status. */
  predicate Begins(i: Index, c: Call) {
    Lists(i, c) && Matches(i, c) && Waited(i, c).status in Allowed(c.entry)
  }

  predicate Claims(i: Index, c: Call) {
    Begins(i, c) && c.world.claim != NotStored
  }

  /** A claimed index starts over without vectors. */
  function Begun(i: Index): Index {
    i.(status := Building, embeddedCount := 0, rows := [])
  }

  function AfterFail(i: Index, world: World): Index {
    if world.failing then i.(status := Failed) else i
  }

  function AfterFinish(i: Index, count: nat, world: World): Index {
    if world.finish == NotStored then i
    else
      var done := i.(status := Ready, embeddedCount := count);
      if world.finish == Stored && !world.searchIndex then AfterFail(done, world) else done
  }

  /** The batches of a claimed build. */
  function BatchesOf(i: Index, c: Call, shape: Shape): Progress {
    Batches(Begun(Waited(i, c)), List(i, c), 0, 0, NormalizeBatchSize(c.batchSize), shape, c.world)
  }

  /** Every chunk of a claimed build is embedded and stored. */
  predicate Embedded(i: Index, c: Call, shape: Shape) {
    c.world.claim == Stored && c.world.credential && BatchesOf(i, c, shape).ok
  }

  /** What a claimed build leaves. */
  function Built(i: Index, c: Call, shape: Shape): Index {
    if !c.world.credential then AfterFail(AfterEvents(Begun(Waited(i, c)), c.world.closing), c.world)
    else
      var closed := AfterEvents(BatchesOf(i, c, shape).index, c.world.closing);
      if BatchesOf(i, c, shape).ok then AfterFinish(closed, |List(i, c)|, c.world) else AfterFail(closed, c.world)
  }

  /** What one call leaves. */
  function After(i: Index, c: Call, shape: Shape): Index {
    if !Lists(i, c) then Prepared(i, c)
    else if !Matches(i, c) then Opened(i, c)
    else if !Claims(i, c) then Waited(i, c)
    else if c.world.claim == StoredUnread then Begun(Waited(i, c))
    else Built(i, c, shape)
  }

  /** The entries start from these states: a rebuild from any but the building one. */
  lemma {:induction false} EntriesStart(i: Index, c: Call)
    ensures Lists(i, c) <==>
            && Refreshed(i, c) && c.world.configured
            && match c.entry
               case Get => false
               case Build => Prepared(i, c).status in {Pending, Stale}
               case Retry => i.status == Failed && !Changed(i)
               case Rebuild => i.status != Building
  {
    hide Fingerprint.FingerprintText;
  }

  // ---------- the service on the stored index ----------

  class EmbeddingIndex {
    const shape: Shape
    var chunks: seq<Chunk>
    var nextId: nat
    var fingerprint: string
    var chunkCount: nat
    var status: Status
    var embeddedCount: nat
    var rows: seq<Row>

    constructor (shape: Shape, chunks: seq<Chunk>, nextId: nat)
      ensures this.shape == shape && Value() == Index(chunks, nextId, Print(chunks), |chunks|, Pending, 0, [])
    {
      this.shape, this.chunks, this.nextId := shape, chunks, nextId;
      fingerprint, chunkCount := Print(chunks), |chunks|;
      status, embeddedCount, rows := Pending, 0, [];
    }

    function Value(): Index
      reads this
    {
      Index(chunks, nextId, fingerprint, chunkCount, status, embeddedCount, rows)
    }

    /** `RefreshEmbeddingIndexFingerprint`, as every look at the index runs it. */
    method Refresh(write: Write) returns (ok: bool)
      modifies this
      ensures Value() == AfterLook(old(Value()), write)
      ensures ok <==> (Changed(old(Value())) ==> write == Stored)
    {
      if fingerprint == Print(chunks) && chunkCount == |chunks| {
        return true;
      }
      if write != NotStored {
        if status == Ready || status == Failed {
          status := Stale;
        }
        fingerprint, chunkCount := Print(chunks), |chunks|;
      }
      ok := write == Stored;
    }

    /** Chunks are deleted, with their vectors, and others created under new ids. */
    method ReplaceChunks(drops: set<nat>, texts: seq<Text>)
      modifies this
      ensures Value() == AfterReplace(old(Value()), drops, texts)
    {
      chunks, rows := Without(chunks, drops) + Given(texts, nextId), KeptRows(rows, drops);
      nextId := nextId + |texts|;
    }

    /** What other callers do. */
    method Suffer(events: seq<Event>)
      modifies this
      ensures Value() == AfterEvents(old(Value()), events)
    {
      hide AfterReplace, AfterLook;
      for n := 0 to |events|
        invariant Value() == AfterEvents(old(Value()), events[..n])
      {
        assert events[..n + 1][..n] == events[..n];
        match events[n] {
          case Replace(drops, texts) => ReplaceChunks(drops, texts);
          case Look(write) => var _ := Refresh(write);
        }
      }
      assert events[..|events|] == events;
    }

    method MarkStale(write: Write) returns (ok: bool)
      modifies this`status
      ensures status == if old(status) != Building && write != NotStored then Stale else old(status)
      ensures ok <==> old(status) != Building && write == Stored
    {
      if status == Building {
        return false;
      }
      if write != NotStored {
        status := Stale;
      }
      ok := write == Stored;
    }

    /** `ClaimEmbeddingIndexBuild`: the build starts over on an index without vectors. */
    method Claim(write: Write) returns (ok: bool)
      modifies this`status, this`embeddedCount, this`rows
      ensures Value() == if write == NotStored then old(Value()) else Begun(old(Value()))
      ensures ok <==> write == Stored
    {
      if write != NotStored {
        status, embeddedCount, rows := Building, 0, [];
      }
      ok := write == Stored;
    }

    method Finish(embedded: nat, write: Write) returns (ok: bool)
      modifies this`status, this`embeddedCount
      ensures ok <==> old(status) == Building && write == Stored
      ensures Value() == if old(status) == Building && write != NotStored
                         then old(Value()).(status := Ready, embeddedCount := embedded) else old(Value())
    {
      if status != Building {
        return false;
      }
      if write != NotStored {
        status, embeddedCount := Ready, embedded;
      }
      ok := write == Stored;
    }

    /** `fail`: nobody hears of a mark that is not stored. */
    method Fail(stored: bool)
      modifies this`status
      ensures Value() == if stored then old(Value()).(status := Failed) else old(Value())
    {
      if stored {
        status := Failed;
      }
    }

    /** One batch of vectors, which refers to its chunks by foreign keys. */
    method Upsert(part: seq<Chunk>, more: seq<Row>, write: Write) returns (ok: bool)
      modifies this`rows
      ensures Value() == if AllThere(part, chunks) && write != NotStored then old(Value()).(rows := old(rows) + more)
                         else old(Value())
      ensures ok <==> AllThere(part, chunks) && write == Stored
    {
      if AllThere(part, chunks) && write != NotStored {
        rows := rows + more;
        ok := write == Stored;
      } else {
        ok := false;
      }
    }

    /** The batch loop. */
    method EmbedAll(list: seq<Chunk>, size: nat, world: World) returns (ok: bool, embedded: nat)
      requires size > 0
      modifies this
      ensures Progress(Value(), ok) == Batches(old(Value()), list, 0, 0, size, shape, world)
      ensures ok ==> embedded == |list|
    {
      hide NextBatch;
      embedded := 0;
      var start, call: nat := 0, 0;
      while start < |list|
        invariant Batches(old(Value()), list, 0, 0, size, shape, world) == Batches(Value(), list, start, call, size, shape, world)
        invariant embedded == Least(start, |list|)
        decreases |list| - start
      {
        var end := start + size;
        if end > |list| {
          end := |list|;
        }
        assert list[start..end] == Part(list, start, size);
        ok := EmbedBatch(list[start..end], call, world);
        if !ok {
          return;
        }
        embedded := embedded + (end - start);
        start, call := start + size, call + 1;
      }
      ok := true;
    }

    /** One round of the loop. */
    method EmbedBatch(part: seq<Chunk>, call: nat, world: World) returns (ok: bool)
      modifies this
      ensures Progress(Value(), ok) == NextBatch(old(Value()), part, call, shape, world)
    {
      hide AfterEvents, RowsFor, AllThere, Contents, Fits;
      var answer := world.embed(call, Contents(part));
      Suffer(world.during(call));
      var batch := CheckAnswer(part, answer, world);
      if batch.None? {
        return false;
      }
      ok := Upsert(part, batch.value, world.stores(call));
    }

    /** The checks on one answer, and its rows. */
    method CheckAnswer(part: seq<Chunk>, answer: Answer, world: World) returns (r: Option<seq<Row>>)
      ensures r.Some? <==> Fits(answer, |part|, shape)
      ensures r.Some? ==> |answer.vectors| == |part| && r.value == RowsFor(part, answer.vectors, shape, world)
    {
      if answer.CallFailed? || |answer.vectors| != |part| || (answer.model != "" && answer.model != shape.model) {
        return None;
      }
      var ok, rows := BuildRows(part, answer.vectors, shape, world);
      r := if ok then Some(rows) else None;
    }

    /** The claimed part of `build`. */
    method BuildClaimed(ghost i: Index, c: Call, list: seq<Chunk>) returns (r: Outcome)
      requires Value() == Begun(Waited(i, c)) && list == List(i, c) && c.world.claim == Stored
      modifies this
      ensures Value() == Built(i, c, shape)
      ensures r == (if !Embedded(i, c, shape) then BuildFailed else if c.world.finish != Stored then FinishFailed
                    else if !c.world.searchIndex then BuildFailed else Completed)
    {
      hide AfterEvents, Waited, List, Batches;
      if !c.world.credential {
        Suffer(c.world.closing);
        Fail(c.world.failing);
        return BuildFailed;
      }
      BatchesKeepBuilding(Value(), list, 0, 0, NormalizeBatchSize(c.batchSize), shape, c.world);
      var ok, embedded := EmbedAll(list, NormalizeBatchSize(c.batchSize), c.world);
      EventsReady(Value(), c.world.closing);
      Suffer(c.world.closing);
      if !ok {
        Fail(c.world.failing);
        return BuildFailed;
      }
      ok := Finish(embedded, c.world.finish);
      if !ok {
        return FinishFailed;
      }
      if !c.world.searchIndex {
        Fail(c.world.failing);
        return BuildFailed;
      }
      r := Completed;
    }

    /** The mark of a rebuild and the look every call starts with. */
    method Prepare(c: Call) returns (r: Outcome)
      modifies this
      ensures Value() == Prepared(old(Value()), c)
      ensures r == MarkFailed <==> !Marked(old(Value()), c)
      ensures r == RefreshFailed <==> Marked(old(Value()), c) && !Refreshed(old(Value()), c)
      ensures r == Looked <==> Refreshed(old(Value()), c)
    {
      hide Changed;
      if c.entry == Rebuild {
        var marked := MarkStale(c.world.mark);
        if !marked {
          return MarkFailed;
        }
      }
      var refreshed := Refresh(c.world.refresh);
      r := if refreshed then Looked else RefreshFailed;
    }

    /** The four ways into the index, once the caller is known to be allowed to use them. */
    method Serve(c: Call) returns (r: Outcome)
      modifies this
      ensures Value() == After(old(Value()), c, shape)
      ensures r == MarkFailed <==> !Marked(old(Value()), c)
      ensures r == RefreshFailed <==> Marked(old(Value()), c) && !Refreshed(old(Value()), c)
      ensures r == Looked <==> Refreshed(old(Value()), c) && c.entry == Get
      ensures r == ClaimFailed <==> Begins(old(Value()), c) && c.world.claim != Stored
      ensures r in {BuildFailed, FinishFailed, Completed} <==> Begins(old(Value()), c) && c.world.claim == Stored
      ensures r == Completed <==>
              && Begins(old(Value()), c) && Embedded(old(Value()), c, shape)
              && c.world.finish == Stored && c.world.searchIndex
    {
      hide AfterEvents, Refreshed, Marked, Prepared, Embedded, Built, Lists, Matches, Begins;
      ghost var i := Value();
      r := Prepare(c);
      if r != Looked || c.entry == Get {
        NotListed(i, c);
        return;
      }
      var list;
      r, list := Open(i, c);
      BuiltAfter(i, c, shape);
      if r == Looked {
        r := BuildClaimed(i, c, list);
      }
    }

    /** `build` between the look and the batches: listing the chunks, the checks, the claim. */
    method Open(ghost i: Index, c: Call) returns (r: Outcome, list: seq<Chunk>)
      requires Value() == Prepared(i, c) && Refreshed(i, c)
      modifies this
      ensures r == Looked ==> Value() == Begun(Waited(i, c)) && list == List(i, c)
      ensures r != Looked ==> Value() == After(i, c, shape)
      ensures r == ClaimFailed <==> Begins(i, c) && c.world.claim != Stored
      ensures r == Looked <==> Begins(i, c) && c.world.claim == Stored
      ensures r in {InvalidState, Unavailable, ClaimFailed, Looked}
    {
      hide AfterEvents, Refreshed, Prepared, Built, Fingerprint.FingerprintText;
      var looked, state := fingerprint, status;
      list := [];
      if state !in Allowed(c.entry) {
        return InvalidState, list;
      }
      if !c.world.configured {
        return Unavailable, list;
      }
      Suffer(c.world.opening);
      list := chunks;
      if |list| == 0 || Print(list) != looked {
        return InvalidState, list;
      }
      Suffer(c.world.waiting);
      if status !in Allowed(c.entry) {
        return InvalidState, list;
      }
      var claimed := Claim(c.world.claim);
      r := if claimed then Looked else ClaimFailed;
    }
  }

  /** The rows of one batch, or nothing when a vector has the wrong dimension. */
  method BuildRows(part: seq<Chunk>, vectors: seq<Vector>, shape: Shape, world: World) returns (ok: bool, rows: seq<Row>)
    requires |part| == |vectors|
    ensures ok <==> forall k :: 0 <= k < |vectors| ==> |vectors[k]| == shape.dimension
    ensures ok ==> rows == RowsFor(part, vectors, shape, world)
  {
    rows := [];
    for offset := 0 to |vectors|
      invariant forall k :: 0 <= k < offset ==> |vectors[k]| == shape.dimension
      invariant rows == RowsFor(part[..offset], vectors[..offset], shape, world)
    {
      if |vectors[offset]| != shape.dimension {
        return false, rows;
      }
      assert part[..offset + 1][..offset] == part[..offset] && vectors[..offset + 1][..offset] == vectors[..offset];
      rows := rows + [RowOf(part[offset], vectors[offset], shape, world)];
    }
    assert part[..|vectors|] == part && vectors[..|vectors|] == vectors;
    ok := true;
  }

  lemma NotListed(i: Index, c: Call)
    ensures !Refreshed(i, c) || c.entry == Get ==> !Lists(i, c) && !Begins(i, c)
  {
    hide Refreshed, Prepared;
  }

  lemma BuiltAfter(i: Index, c: Call, shape: Shape)
    ensures Begins(i, c) && c.world.claim == Stored ==> After(i, c, shape) == Built(i, c, shape)
    ensures Embedded(i, c, shape) ==> c.world.claim == Stored
  {
    hide Lists, Matches, Built, BatchesOf;
  }

  lemma BatchKeepsBuilding(i: Index, part: seq<Chunk>, call: nat, shape: Shape, world: World)
    ensures var j := NextBatch(i, part, call, shape, world).index;
            (j.status == Building <==> i.status == Building) && j.embeddedCount == i.embeddedCount
  {
    hide AfterEvents, RowsFor, AllThere, Contents;
    EventsReady(i, world.during(call));
  }

  /** Nothing that happens during the batches ends a build. */
  lemma {:induction false} BatchesKeepBuilding(i: Index, list: seq<Chunk>, start: nat, call: nat, size: nat, shape: Shape,
                                               world: World)
    requires size > 0
    ensures var j := Batches(i, list, start, call, size, shape, world).index;
            (j.status == Building <==> i.status == Building) && j.embeddedCount == i.embeddedCount
    decreases |list| - start
  {
    hide NextBatch, Part;
    if start < |list| {
      var p := NextBatch(i, Part(list, start, size), call, shape, world);
      BatchKeepsBuilding(i, Part(list, start, size), call, shape, world);
      BatchesKeepBuilding(p.index, list, start + size, call + 1, size, shape, world);
    }
  }
}
